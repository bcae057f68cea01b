/** The text helpers of the geolocation agent (models/Geolocation/utils.py):
    reading a prediction out of the model's answer, trimming brackets off
    a query field, reading the web agent's final answer out of its
    rendered trajectory, and the error path of the distance computation.
    Python's regular expressions are written out as scanners; `\s` is
    taken to be the ASCII whitespace of `Text.IsSpace`. */
module GeoUtils {
  import opened Wrappers
  import opened Text

  /** A distance in kilometres, or Python's `float('inf')`. */
  datatype Distance = Km(km: real) | Infinite

  /** `calculate_distance`: infinity as soon as a coordinate is not a
      number. Python's `float` on a string is the parameter `toFloat`
      (None where it raises) and the haversine formula the parameter
      `haversine`. */
  function CalculateDistance(lat1: string, lon1: string, lat2: string, lon2: string,
                             toFloat: string -> Option<real>, haversine: (real, real, real, real) -> real): (d: Distance)
    ensures d.Infinite? <==> toFloat(lat1).None? || toFloat(lon1).None? || toFloat(lat2).None? || toFloat(lon2).None?
  {
    var a, b, c, e := toFloat(lat1), toFloat(lon1), toFloat(lat2), toFloat(lon2);
    if a.None? || b.None? || c.None? || e.None? then Infinite
    else Km(haversine(a.value, b.value, c.value, e.value))
  }

  const ReasoningLabel := "Reasoning Steps:"
  const CoordinateMarker := "\nEstimated Coordinate:"
  const CoordinateLabel := "Estimated Coordinate:"
  const LocationLabel := "Estimated Location:"

  /** The reasoning `parse_prediction` reads: after the first
      "Reasoning Steps:" and the whitespace that follows it, the text up
      to the next "\nEstimated Coordinate:", stripped; "" when either is
      missing. */
  function Reasoning(output: string): string {
    var i := FindSub(output, ReasoningLabel, 0);
    if i == -1 then ""
    else
      var p := SkipSpaces(output, i + |ReasoningLabel|);
      var q := FindSub(output, CoordinateMarker, p);
      if q == -1 then "" else Strip(output[p..q])
  }

  /** `[-\d.]`: the characters a coordinate is made of. */
  predicate IsCoordChar(c: char) {
    c == '-' || c == '.' || IsDigit(c)
  }

  /** Where a greedy `[-\d.]*` starting at `i` stops. */
  function RunEnd(s: string, i: nat): (j: nat)
    requires i <= |s|
    ensures i <= j <= |s|
    ensures forall k :: i <= k < j ==> IsCoordChar(s[k])
    ensures j < |s| ==> !IsCoordChar(s[j])
    decreases |s| - i
  {
    if i < |s| && IsCoordChar(s[i]) then RunEnd(s, i + 1) else i
  }

  /** The group of `([-\d.]+,\s*[-\d.]+)`: two coordinate runs and the
      whitespace after the comma. */
  datatype CoordGroup = CoordGroup(first: string, gap: string, second: string)

  predicate AllCoordChars(s: string) {
    forall k :: 0 <= k < |s| ==> IsCoordChar(s[k])
  }

  predicate AllSpaces(s: string) {
    forall k :: 0 <= k < |s| ==> IsSpace(s[k])
  }

  /** `\s*([-\d.]+,\s*[-\d.]+)` tried at `p`. Each quantifier can only
      succeed by taking all it can: a shorter run leaves a coordinate
      character or a blank where the comma or the next run must be. */
  function CoordsAt(s: string, p: nat): (r: Option<CoordGroup>)
    requires p <= |s|
    ensures r.Some? ==> (r.value.first != [] && AllCoordChars(r.value.first) &&
                         r.value.second != [] && AllCoordChars(r.value.second) && AllSpaces(r.value.gap))
  {
    var a := SkipSpaces(s, p);
    var e := RunEnd(s, a);
    if e == a || e >= |s| || s[e] != ',' then None
    else
      var b := SkipSpaces(s, e + 1);
      var f := RunEnd(s, b);
      if f == b then None else Some(CoordGroup(s[a..e], s[e + 1..b], s[b..f]))
  }

  /** `re.search(r"Estimated Coordinate:\s*([-\d.]+,\s*[-\d.]+)", output)`
      from index `start`: the first occurrence of the label where the
      rest of the pattern matches. */
  function CoordMatch(s: string, start: nat): (r: Option<CoordGroup>)
    decreases |s| - start
  {
    if start + |CoordinateLabel| > |s| then None
    else
      var g := if OccursAt(s, CoordinateLabel, start) then CoordsAt(s, start + |CoordinateLabel|) else None;
      if g.Some? then g else CoordMatch(s, start + 1)
  }

  /** `s.replace(" ", "")`. */
  function RemoveSpaces(s: string): (r: string)
    ensures ' ' !in r
    ensures |r| <= |s|
  {
    if s == [] then []
    else RemoveSpaces(s[..|s| - 1]) + (if s[|s| - 1] == ' ' then [] else [s[|s| - 1]])
  }

  /** `re.search(marker + r"\s*(.*)", output).group(1).strip()`: after the
      first occurrence of `marker` and the whitespace after it (line breaks
      included), the rest of that line, stripped; `None` without the
      marker. */
  function FieldAfter(output: string, marker: string): (r: Option<string>)
    ensures r.None? <==> !Contains(output, marker)
    ensures r.Some? ==> '\n' !in r.value && (r.value != [] ==> !IsSpace(r.value[0]) && !IsSpace(r.value[|r.value| - 1]))
  {
    var i := FindSub(output, marker, 0);
    if i == -1 then None else Some(FieldLine(output, marker, i))
  }

  /** The rest of the line after the marker at `i` and the whitespace
      after it, stripped. */
  function FieldLine(output: string, marker: string, i: nat): (r: string)
    requires i + |marker| <= |output|
    ensures '\n' !in r && (r != [] ==> !IsSpace(r[0]) && !IsSpace(r[|r| - 1]))
  {
    var line := LineFrom(output, SkipSpaces(output, i + |marker|));
    StripWithin(line);
    Strip(line)
  }

  /** The location line after "Estimated Location:"; "" without the
      label. */
  function LocationText(output: string): string {
    match FieldAfter(output, LocationLabel)
    case Some(t) => t
    case None => ""
  }

  /** `parts[k].strip() if len(parts) > k else ""`. */
  function Part(parts: seq<string>, k: nat): string {
    if k < |parts| then Strip(parts[k]) else ""
  }

  /** The location split on commas into continent, country, city and
      street. */
  function ParseLocation(location: string): (string, string, string, string) {
    var parts := Split(location, ',');
    (Part(parts, 0), Part(parts, 1), Part(parts, 2), Part(parts, 3))
  }

  /** The dictionary `parse_prediction` returns, one field per key. */
  datatype Prediction = Prediction(reasoning: string, latitude: string, longitude: string,
                                   continent: string, country: string, city: string, street: string)

  /** `parse_prediction`: every key is filled, with "" where its part of
      the answer is missing. */
  function ParsePrediction(output: string): Prediction {
    var coords := match CoordMatch(output, 0)
      case Some(g) => RemoveSpaces(g.first + "," + g.gap + g.second)
      case None => "";
    var parsed := Split(coords, ',');
    var (continent, country, city, street) := ParseLocation(LocationText(output));
    Prediction(Reasoning(output), Part(parsed, 0), Part(parsed, 1), continent, country, city, street)
  }

  /** A text with no space in it keeps its characters. */
  lemma {:induction false} RemoveSpacesNone(s: string)
    requires ' ' !in s
    ensures RemoveSpaces(s) == s
  {
    if s != [] {
      var init := s[..|s| - 1];
      assert forall c :: c in init ==> c in s;
      RemoveSpacesNone(init);
      assert s == init + [s[|s| - 1]];
    }
  }

  lemma {:induction false} RemoveSpacesConcat(a: string, b: string)
    ensures RemoveSpaces(a + b) == RemoveSpaces(a) + RemoveSpaces(b)
    decreases |b|
  {
    if b == [] {
      assert a + b == a;
    } else {
      var init := b[..|b| - 1];
      var c := b[|b| - 1];
      var tail := if c == ' ' then [] else [c];
      assert (a + b)[..|a + b| - 1] == a + init;
      assert (a + b)[|a + b| - 1] == c;
      RemoveSpacesConcat(a, init);
      assert RemoveSpaces(a + b) == RemoveSpaces(a) + RemoveSpaces(init) + tail;
      assert RemoveSpaces(b) == RemoveSpaces(init) + tail;
    }
  }

  /** Leading whitespace is all `lstrip` removes in front of `x`. */
  lemma {:induction false} TrimLeftSpaces(w: string, x: string)
    requires AllSpaces(w)
    ensures TrimLeftWith(w + x, IsSpace) == TrimLeftWith(x, IsSpace)
    decreases |w|
  {
    if w == [] {
      assert w + x == x;
    } else {
      assert w + x == [w[0]] + (w[1..] + x);
      TrimLeftCons(w[0], w[1..] + x, IsSpace);
      TrimLeftSpaces(w[1..], x);
    }
  }

  /** Whitespace in front of a text that neither starts nor ends with
      whitespace is what `strip` removes. */
  lemma StripAfterSpaces(w: string, x: string)
    requires AllSpaces(w) && x != [] && !IsSpace(x[0]) && !IsSpace(x[|x| - 1])
    ensures Strip(w + x) == x
  {
    TrimLeftSpaces(w, x);
    StripWithTrims(w + x, IsSpace);
    StripWithTrims(x, IsSpace);
    StripUnchanged(x);
  }

  /** Removing spaces from whitespace leaves whitespace. */
  lemma {:induction false} GapStaysBlank(w: string)
    requires AllSpaces(w)
    ensures AllSpaces(RemoveSpaces(w)) && ',' !in RemoveSpaces(w)
  {
    if w != [] {
      GapStaysBlank(w[..|w| - 1]);
      assert IsSpace(w[|w| - 1]);
    }
  }

  /** The coordinate text of a match, with spaces removed, split on the
      comma and stripped, gives back the two runs. */
  lemma CoordTextParts(first: string, gap: string, second: string)
    requires first != [] && AllCoordChars(first) && second != [] && AllCoordChars(second) && AllSpaces(gap)
    ensures var parsed := Split(RemoveSpaces(first + "," + gap + second), ',');
      Part(parsed, 0) == first && Part(parsed, 1) == second
  {
    CoordTextSplit(first, gap, second);
    GapStaysBlank(gap);
    assert IsCoordChar(first[0]) && IsCoordChar(first[|first| - 1]);
    assert IsCoordChar(second[0]) && IsCoordChar(second[|second| - 1]);
    StripUnchanged(first);
    StripAfterSpaces(RemoveSpaces(gap), second);
  }

  /** The comma between the runs is the only one left once the spaces
      are gone. */
  lemma CoordTextSplit(first: string, gap: string, second: string)
    requires AllCoordChars(first) && AllCoordChars(second) && AllSpaces(gap)
    ensures Split(RemoveSpaces(first + "," + gap + second), ',') == [first, RemoveSpaces(gap) + second]
  {
    assert ' ' !in first && ',' !in first by {
      assert forall c | c in first :: IsCoordChar(c);
    }
    assert ' ' !in second && ',' !in second by {
      assert forall c | c in second :: IsCoordChar(c);
    }
    var blank := RemoveSpaces(gap);
    assert first + "," + gap + second == (first + ",") + (gap + second);
    RemoveSpacesConcat(first + ",", gap + second);
    RemoveSpacesConcat(first, ",");
    RemoveSpacesConcat(gap, second);
    RemoveSpacesNone(first);
    RemoveSpacesNone(",");
    RemoveSpacesNone(second);
    assert RemoveSpaces(first + "," + gap + second) == first + [','] + (blank + second);
    GapStaysBlank(gap);
    assert ',' !in blank + second;
    SplitPair(first, blank + second, ',');
  }

  /** The latitude and longitude are exactly the two coordinate runs the
      pattern found: removing spaces, splitting on the comma and
      stripping only take off the whitespace after the comma. */
  lemma CoordinatesAreRuns(output: string)
    requires CoordMatch(output, 0).Some?
    ensures var g := CoordMatch(output, 0).value;
      ParsePrediction(output).latitude == g.first && ParsePrediction(output).longitude == g.second
  {
    var g := CoordMatch(output, 0).value;
    CoordMatchShape(output, 0);
    CoordTextParts(g.first, g.gap, g.second);
  }

  /** Every match `CoordMatch` reports has the shape of the pattern. */
  lemma {:induction false} CoordMatchShape(s: string, start: nat)
    requires CoordMatch(s, start).Some?
    ensures var g := CoordMatch(s, start).value;
      g.first != [] && AllCoordChars(g.first) && g.second != [] && AllCoordChars(g.second) && AllSpaces(g.gap)
    decreases |s| - start
  {
    if !OccursAt(s, CoordinateLabel, start) || CoordsAt(s, start + |CoordinateLabel|).None? {
      CoordMatchShape(s, start + 1);
    }
  }

  /** Without a coordinate match both coordinates are "". */
  lemma NoCoordinates(output: string)
    requires CoordMatch(output, 0).None?
    ensures ParsePrediction(output).latitude == "" && ParsePrediction(output).longitude == ""
  {
    assert FindFrom("", ',', 0) == -1;
    assert Split("", ',') == [""];
    StripUnchanged("");
  }

  /** Without the location label every location field is "". */
  lemma NoLocation(output: string)
    requires !Contains(output, LocationLabel)
    ensures var p := ParsePrediction(output); p.continent == "" && p.country == "" && p.city == "" && p.street == ""
  {
    assert FindSub(output, LocationLabel, 0) == -1;
    assert FindFrom("", ',', 0) == -1;
    assert Split("", ',') == [""];
    StripUnchanged("");
  }

  /** Comma-separated location parts: the first four, stripped, are the
      fields, later parts are ignored, and missing ones are "". */
  lemma LocationFields(parts: seq<string>)
    requires |parts| >= 1 && forall i :: 0 <= i < |parts| ==> ',' !in parts[i]
    ensures ParseLocation(Join(parts, ',')) == (Part(parts, 0), Part(parts, 1), Part(parts, 2), Part(parts, 3))
  {
    SplitJoin(parts, ',');
  }

  lemma LocationCommas(continent: string, country: string, city: string, street: string)
    requires ',' !in continent && ',' !in country && ',' !in city && ',' !in street
    ensures var parts := [continent, " " + country, " " + city, " " + street];
      forall i :: 0 <= i < |parts| ==> ',' !in parts[i]
  {
  }

  /** Neither starts nor ends with whitespace: what `strip` leaves
      unchanged. */
  predicate Trimmed(s: string) {
    s != [] ==> !IsSpace(s[0]) && !IsSpace(s[|s| - 1])
  }

  /** A location written as "continent, country, city, street" (the
      parts joined by commas, each after the first behind one blank),
      from parts free of commas and of surrounding whitespace, reads back
      as those parts. */
  lemma LocationRoundTrip(continent: string, country: string, city: string, street: string)
    requires ',' !in continent && ',' !in country && ',' !in city && ',' !in street
    requires Trimmed(continent) && Trimmed(country) && Trimmed(city) && Trimmed(street)
    ensures ParseLocation(Join([continent, " " + country, " " + city, " " + street], ',')) == (continent, country, city, street)
  {
    var parts := [continent, " " + country, " " + city, " " + street];
    LocationCommas(continent, country, city, street);
    LocationFields(parts);
    SpacedPartsStrip(continent, country, city, street);
  }

  /** Stripping the written parts gives back the fields. */
  lemma SpacedPartsStrip(continent: string, country: string, city: string, street: string)
    requires Trimmed(continent) && Trimmed(country) && Trimmed(city) && Trimmed(street)
    ensures var parts := [continent, " " + country, " " + city, " " + street];
      Part(parts, 0) == continent && Part(parts, 1) == country && Part(parts, 2) == city && Part(parts, 3) == street
  {
    StripUnchanged(continent);
    StripSpaced(country);
    StripSpaced(city);
    StripSpaced(street);
  }

  /** One blank in front of a stripped text is stripped off again. */
  lemma StripSpaced(x: string)
    requires Trimmed(x)
    ensures Strip(" " + x) == x
  {
    StripUnchanged(x);
    TrimLeftCons(' ', x, IsSpace);
    assert [' '] + x == " " + x;
    StripWithTrims(" " + x, IsSpace);
    StripWithTrims(x, IsSpace);
  }

  /** An answer laid out as the prompt asks gives back its reasoning:
      the text between the labels, when the coordinate marker does not
      occur earlier. */
  lemma ReasoningRoundTrip(r: string, rest: string)
    requires r != [] && !IsSpace(r[0]) && !IsSpace(r[|r| - 1])
    requires forall i :: 0 <= i < |ReasoningLabel| + 1 + |r| ==>
      !OccursAt(ReasoningLabel + " " + r + CoordinateMarker + rest, CoordinateMarker, i)
    ensures Reasoning(ReasoningLabel + " " + r + CoordinateMarker + rest) == r
  {
    var s := ReasoningLabel + " " + r + CoordinateMarker + rest;
    var n := |ReasoningLabel|;
    ReasoningLayout(ReasoningLabel, r, CoordinateMarker, rest);
    FindSubIs(s, ReasoningLabel, 0, 0);
    assert SkipSpaces(s, n + 1) == n + 1;
    assert SkipSpaces(s, n) == n + 1;
    FindSubIs(s, CoordinateMarker, n + 1, n + 1 + |r|);
    StripUnchanged(r);
  }

  /** Where the parts of "<head> <r><marker><rest>" lie. */
  lemma ReasoningLayout(head: string, r: string, marker: string, rest: string)
    requires r != [] && !IsSpace(r[0])
    ensures var s := head + " " + r + marker + rest;
      var n := |head|;
      OccursAt(s, head, 0) && s[n] == ' ' && !IsSpace(s[n + 1]) &&
      s[n + 1..n + 1 + |r|] == r && OccursAt(s, marker, n + 1 + |r|)
  {
    var s := head + " " + r + marker + rest;
    assert s == [] + head + (" " + r + marker + rest);
    OccursBetween([], head, " " + r + marker + rest);
    OccursBetween(head + " ", r, marker + rest);
    assert s == head + " " + r + marker + rest;
    OccursBetween(head + " " + r, marker, rest);
  }

  /** `c in "<>"`. */
  predicate IsAngle(c: char) {
    c == '<' || c == '>'
  }

  /** `clean_brackets`: whitespace, then angle brackets, then whitespace
      again are stripped; the result neither starts nor ends with
      whitespace. */
  function CleanBrackets(text: string): (r: string)
    ensures r != [] ==> !IsSpace(r[0]) && !IsSpace(r[|r| - 1])
    ensures |r| <= |text|
  {
    Strip(StripWith(Strip(text), IsAngle))
  }

  /** Brackets around a text with no bracket or whitespace at its ends
      are removed. */
  lemma CleanBracketsPeel(y: string)
    requires y != [] && !IsSpace(y[0]) && !IsSpace(y[|y| - 1]) && !IsAngle(y[0]) && !IsAngle(y[|y| - 1])
    ensures CleanBrackets("<" + y + ">") == y
  {
    var s := "<" + y + ">";
    assert s == ['<'] + y + ['>'];
    assert s[0] == '<' && s[|s| - 1] == '>';
    StripUnchanged(s);
    StripWithEnclosed('<', y, '>', IsAngle);
    StripUnchanged(y);
  }

  /** Brackets stop being stripped at whitespace: inside "< " and " >"
      only the blanks go. */
  lemma CleanBracketsSpaced(y: string)
    requires y != [] && !IsSpace(y[0]) && !IsSpace(y[|y| - 1])
    ensures CleanBrackets("< " + y + " >") == y
  {
    var spaced := " " + y + " ";
    var s := "< " + y + " >";
    assert s == ['<'] + spaced + ['>'];
    assert spaced == [' '] + y + [' '];
    assert s[0] == '<' && s[|s| - 1] == '>';
    assert spaced[0] == ' ' && spaced[|spaced| - 1] == ' ';
    assert !IsAngle(spaced[0]) && !IsAngle(spaced[|spaced| - 1]);
    StripUnchanged(s);
    StripWithEnclosed('<', spaced, '>', IsAngle);
    StripWithEnclosed(' ', y, ' ', IsSpace);
  }

  /** Cleaning is not idempotent: brackets behind whitespace survive the
      first call and go in the second. */
  lemma CleanBracketsNotIdempotent(y: string)
    requires y != [] && !IsSpace(y[0]) && !IsSpace(y[|y| - 1]) && !IsAngle(y[0]) && !IsAngle(y[|y| - 1])
    ensures CleanBrackets("< <" + y + "> >") == "<" + y + ">"
    ensures CleanBrackets(CleanBrackets("< <" + y + "> >")) == y
  {
    var bracketed := "<" + y + ">";
    assert "< <" + y + "> >" == "< " + bracketed + " >";
    assert bracketed[0] == '<' && bracketed[|bracketed| - 1] == '>';
    CleanBracketsSpaced(bracketed);
    CleanBracketsPeel(y);
  }

  const DivOpen := "<div class='parsed_action'"
  const StopOpen := "<pre>stop ["
  const StopClose := "]</pre>"

  /** `<div class='parsed_action'[^>]*?><pre>stop \[(.*?)\]</pre>` with
      DOTALL, searched from `start`: at an opening of the div, the tag
      must close at its first '>' with the stop action right after it,
      and the answer runs to the first "]</pre>". */
  function AnswerFrom(html: string, start: nat): (r: Option<string>)
    decreases |html| - start
  {
    if start + |DivOpen| > |html| then None
    else
      var answer := if OccursAt(html, DivOpen, start) then DivAnswer(html, start) else None;
      if answer.Some? then answer else AnswerFrom(html, start + 1)
  }

  /** The rest of the pattern tried at a div opening at `i`. */
  function DivAnswer(html: string, i: nat): (r: Option<string>)
    requires i + |DivOpen| <= |html|
  {
    var gt := FindFrom(html, '>', i + |DivOpen|);
    if gt != -1 && OccursAt(html, StopOpen, gt + 1) then
      var close := FindSub(html, StopClose, gt + 1 + |StopOpen|);
      if close != -1 then Some(html[gt + 1 + |StopOpen|..close]) else None
    else None
  }

  /** `extract_parsed_answer_from_html` on the text of the file: the
      stripped answer of the stop action, or ValueError. */
  function ExtractParsedAnswer(html: string): (r: Result<string>)
    ensures r.Err? <==> AnswerFrom(html, 0).None?
    ensures r.Err? ==> r.error == ValueError("Could not find parsed_action answer in HTML.")
    ensures r.Ok? ==> r.value == Strip(AnswerFrom(html, 0).value)
  {
    match AnswerFrom(html, 0)
    case None => Err(ValueError("Could not find parsed_action answer in HTML."))
    case Some(answer) => Ok(Strip(answer))
  }

  /** A page without the parsed-action div has no answer. */
  lemma {:induction false} NoDivNoAnswer(html: string, start: nat)
    requires !Contains(html, DivOpen)
    ensures AnswerFrom(html, start).None?
    decreases |html| - start
  {
    if start + |DivOpen| <= |html| {
      if OccursAt(html, DivOpen, start) {
        ContainsAt(html, DivOpen, start);
      }
      NoDivNoAnswer(html, start + 1);
    }
  }

  /** The answer found at the first opening of the div. */
  lemma AnswerAt(html: string, i: nat, gt: nat, close: nat, answer: string)
    requires FindSub(html, DivOpen, 0) == i
    requires FindFrom(html, '>', i + |DivOpen|) == gt
    requires OccursAt(html, StopOpen, gt + 1)
    requires FindSub(html, StopClose, gt + 1 + |StopOpen|) == close
    requires close >= gt + 1 + |StopOpen| && html[gt + 1 + |StopOpen|..close] == answer
    ensures AnswerFrom(html, 0) == Some(answer)
  {
    DivAnswerIs(html, i, gt, close, answer);
    AnswerFromAt(html, 0, i);
  }

  /** The rest of the pattern at the div opening at `i`. */
  lemma DivAnswerIs(html: string, i: nat, gt: nat, close: nat, answer: string)
    requires i + |DivOpen| <= |html|
    requires FindFrom(html, '>', i + |DivOpen|) == gt
    requires OccursAt(html, StopOpen, gt + 1)
    requires FindSub(html, StopClose, gt + 1 + |StopOpen|) == close
    requires close >= gt + 1 + |StopOpen| && html[gt + 1 + |StopOpen|..close] == answer
    ensures DivAnswer(html, i) == Some(answer)
  {
  }

  /** With no div opening from `k` up to `i`, the search reaches the
      opening at `i`. */
  lemma {:induction false} AnswerFromAt(html: string, k: nat, i: nat)
    requires k <= i && OccursAt(html, DivOpen, i) && DivAnswer(html, i).Some?
    requires forall q :: k <= q < i ==> !OccursAt(html, DivOpen, q)
    ensures AnswerFrom(html, k) == DivAnswer(html, i)
    decreases i - k
  {
    if k < i {
      AnswerFromAt(html, k + 1, i);
    }
  }

  /** Where each piece of a text laid out as
      `pre + d + attributes + ">" + o + answer + c + post` sits. */
  lemma Layout(pre: string, d: string, attributes: string, o: string, answer: string, c: string, post: string)
    ensures var html := pre + d + attributes + ">" + o + answer + c + post;
      var gt := |pre| + |d| + |attributes|;
      var a := gt + 1 + |o|;
      OccursAt(html, d, |pre|) && html[gt] == '>' && OccursAt(html, o, gt + 1) &&
      OccursAt(html, c, a + |answer|) && html[a..a + |answer|] == answer &&
      forall k :: |pre| + |d| <= k < gt ==> html[k] == attributes[k - |pre| - |d|]
  {
    LayoutFront(pre, d, attributes, o, answer, c, post);
    assert pre + d + attributes + ">" + o + answer + c + post == (pre + d + attributes + ">") + o + answer + c + post;
    LayoutBack(pre + d + attributes + ">", o, answer, c, post);
  }

  /** The head of such a text: the opening, its attributes and the '>'. */
  lemma LayoutFront(pre: string, d: string, attributes: string, o: string, answer: string, c: string, post: string)
    ensures var html := pre + d + attributes + ">" + o + answer + c + post;
      var gt := |pre| + |d| + |attributes|;
      OccursAt(html, d, |pre|) && html[gt] == '>' &&
      forall k :: |pre| + |d| <= k < gt ==> html[k] == attributes[k - |pre| - |d|]
  {
    var rest := o + answer + c + post;
    assert pre + d + attributes + ">" + o + answer + c + post == pre + d + (attributes + ">" + rest);
    OccursBetween(pre, d, attributes + ">" + rest);
  }

  /** The tail of such a text: the stop action, the answer and the
      block's close. */
  lemma LayoutBack(head: string, o: string, answer: string, c: string, post: string)
    ensures var html := head + o + answer + c + post;
      var a := |head| + |o|;
      OccursAt(html, o, |head|) && OccursAt(html, c, a + |answer|) && html[a..a + |answer|] == answer
  {
    assert head + o + answer + c + post == head + o + (answer + c + post);
    OccursBetween(head, o, answer + c + post);
    OccursBetween(head + o + answer, c, post);
    assert (head + o + answer + c + post)[|head| + |o|..|head| + |o| + |answer|] == answer;
  }

  /** The parsed-action div holding the stop action with `answer`,
      between `pre` and `post`. */
  function Rendered(pre: string, attributes: string, answer: string, post: string): string {
    pre + DivOpen + attributes + ">" + StopOpen + answer + StopClose + post
  }

  /** Where the answer starts in `Rendered(pre, attributes, ...)`. */
  function AnswerStart(pre: string, attributes: string): nat {
    |pre| + |DivOpen| + |attributes| + 1 + |StopOpen|
  }

  /** The div's tag closes at its own '>', no div opens before it, and the
      answer does not itself close the block. */
  predicate Unambiguous(pre: string, attributes: string, answer: string, post: string) {
    var html := Rendered(pre, attributes, answer, post);
    var start := AnswerStart(pre, attributes);
    '>' !in attributes &&
    (forall i :: 0 <= i < |pre| ==> !OccursAt(html, DivOpen, i)) &&
    (forall k :: start <= k < start + |answer| ==> !OccursAt(html, StopClose, k))
  }

  /** The first div opening is the rendered one. */
  lemma DivFound(pre: string, attributes: string, answer: string, post: string)
    requires Unambiguous(pre, attributes, answer, post)
    ensures FindSub(Rendered(pre, attributes, answer, post), DivOpen, 0) == |pre|
  {
    Layout(pre, DivOpen, attributes, StopOpen, answer, StopClose, post);
    FindSubIs(Rendered(pre, attributes, answer, post), DivOpen, 0, |pre|);
  }

  /** The tag closes at its own '>'. */
  lemma TagCloses(pre: string, attributes: string, answer: string, post: string)
    requires '>' !in attributes
    ensures FindFrom(Rendered(pre, attributes, answer, post), '>', |pre| + |DivOpen|) == |pre| + |DivOpen| + |attributes|
  {
    FirstCloseAfter(pre, DivOpen, attributes, StopOpen, answer, StopClose, post);
  }

  /** In a text laid out as in `Layout`, the first '>' after the opening
      ends the attributes. */
  lemma FirstCloseAfter(pre: string, d: string, attributes: string, o: string, answer: string, c: string, post: string)
    requires '>' !in attributes
    ensures FindFrom(pre + d + attributes + ">" + o + answer + c + post, '>', |pre| + |d|) == |pre| + |d| + |attributes|
  {
    var html := pre + d + attributes + ">" + o + answer + c + post;
    var gt := |pre| + |d| + |attributes|;
    LayoutFront(pre, d, attributes, o, answer, c, post);
    assert forall k :: |pre| + |d| <= k < gt ==> html[k] != '>' by {
      forall k | |pre| + |d| <= k < gt
        ensures html[k] != '>'
      {
        assert html[k] == attributes[k - |pre| - |d|];
      }
    }
    FindFromIs(html, '>', |pre| + |d|, gt);
  }

  /** The stop action follows the tag, and the answer follows it. */
  lemma StopFollows(pre: string, attributes: string, answer: string, post: string)
    ensures var html := Rendered(pre, attributes, answer, post);
      var a := AnswerStart(pre, attributes);
      OccursAt(html, StopOpen, |pre| + |DivOpen| + |attributes| + 1) && html[a..a + |answer|] == answer
  {
    Layout(pre, DivOpen, attributes, StopOpen, answer, StopClose, post);
  }

  /** The block closes right after the answer. */
  lemma CloseFound(pre: string, attributes: string, answer: string, post: string)
    requires Unambiguous(pre, attributes, answer, post)
    ensures var a := AnswerStart(pre, attributes);
      FindSub(Rendered(pre, attributes, answer, post), StopClose, a) == a + |answer|
  {
    var a := AnswerStart(pre, attributes);
    Layout(pre, DivOpen, attributes, StopOpen, answer, StopClose, post);
    FindSubIs(Rendered(pre, attributes, answer, post), StopClose, a, a + |answer|);
  }

  /** The search finds the answer where it was rendered. */
  lemma AnswerLaidOut(pre: string, attributes: string, answer: string, post: string)
    requires Unambiguous(pre, attributes, answer, post)
    ensures AnswerFrom(Rendered(pre, attributes, answer, post), 0) == Some(answer)
  {
    var gt := |pre| + |DivOpen| + |attributes|;
    var a := AnswerStart(pre, attributes);
    DivFound(pre, attributes, answer, post);
    TagCloses(pre, attributes, answer, post);
    StopFollows(pre, attributes, answer, post);
    CloseFound(pre, attributes, answer, post);
    AnswerAt(Rendered(pre, attributes, answer, post), |pre|, gt, a + |answer|, answer);
  }

  /** The stop action rendered in the parsed-action div gives back its
      answer, stripped, when nothing around it can be taken for it. */
  lemma ExtractRoundTrip(pre: string, attributes: string, answer: string, post: string)
    requires Unambiguous(pre, attributes, answer, post)
    ensures ExtractParsedAnswer(Rendered(pre, attributes, answer, post)) == Ok(Strip(answer))
  {
    AnswerLaidOut(pre, attributes, answer, post);
  }
}
