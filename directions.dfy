/** `parse_directions` of models/outdoor/navigation/outdoor_navigation.py:
    turn-by-turn text, one instruction per line, into (action, distance in
    metres) pairs.

    The two regular expressions the function uses are modelled as
    hand-written scanners over ASCII: `\d` is an ASCII digit, `\s` one of
    Python's six ASCII blanks, `\w` an ASCII letter, digit or '_', and
    ignoring case folds ASCII letters only. */
module Directions {
  import opened Wrappers
  import opened Text

  datatype Action = Left | Right | Straight

  /** {"action": ..., "distance": ...} */
  datatype Direction = Direction(action: Action, distance: real)

  /** The characters at which `str.splitlines` breaks a line. */
  predicate IsLineBreak(c: char) {
    c == '\n' || c == '\r' || c == '\U{0B}' || c == '\U{0C}' || c == '\U{1C}' ||
    c == '\U{1D}' || c == '\U{1E}' || c == '\U{85}' || c == '\U{2028}' || c == '\U{2029}'
  }

  /** The first index at or after `i` whose character fails `p`, or |s|. */
  function SkipWhile(s: string, i: nat, p: char -> bool): (r: nat)
    requires i <= |s|
    ensures i <= r <= |s|
    ensures forall k :: i <= k < r ==> p(s[k])
    ensures r < |s| ==> !p(s[r])
    decreases |s| - i
  {
    if i == |s| || !p(s[i]) then i else SkipWhile(s, i + 1, p)
  }

  function NotLineBreak(c: char): bool { !IsLineBreak(c) }

  /** `text.splitlines()`, except that "\r\n" and a final line break give
      an extra empty line. Empty lines are skipped by the parser, so the
      lines that can yield an instruction are the same. */
  function SplitLines(s: string): (r: seq<string>)
    ensures forall k, j :: 0 <= k < |r| && 0 <= j < |r[k]| ==> !IsLineBreak(r[k][j])
    decreases |s|
  {
    var b := SkipWhile(s, 0, NotLineBreak);
    if b == |s| then [s] else [s[..b]] + SplitLines(s[b + 1..])
  }

  /** `\w` on ASCII. */
  predicate IsWordChar(c: char) {
    IsDigit(c) || 'a' <= c <= 'z' || 'A' <= c <= 'Z' || c == '_'
  }

  /** `\b` right after a word character: the end of the text or a
      non-word character follows. */
  predicate EndsWord(s: string, i: nat) {
    i >= |s| || !IsWordChar(s[i])
  }

  function Pow10(n: nat): (r: nat)
    ensures r >= 1
  {
    if n == 0 then 1 else 10 * Pow10(n - 1)
  }

  /** The value of ".ddd" given the digits after the point. */
  function Fraction(s: string): real
    requires AllDigits(s)
  {
    Decimal(s) as real / Pow10(|s|) as real
  }

  /** The two capture groups: the number and whether the unit is km. */
  datatype Quantity = Quantity(value: real, km: bool)

  /** `distance = value * 1000 if unit == "km" else value` */
  function Meters(q: Quantity): real {
    if q.km then q.value * 1000.0 else q.value
  }

  /** `(\d+(?:\.\d+)?)\s*(km|m)\b` ignoring case, tried at index `q`.
      Every quantifier in it has a single way to succeed here: a shorter
      digit run or a skipped fraction leaves a digit or a '.' where a
      blank or a unit letter is needed. */
  function QuantityAt(s: string, q: nat): (r: Option<Quantity>)
    requires q <= |s|
    ensures r.Some? ==> q < |s| && IsDigit(s[q])
  {
    var d := SkipWhile(s, q, IsDigit);
    if d == q then None
    else
      var f := if d + 1 < |s| && s[d] == '.' && IsDigit(s[d + 1]) then SkipWhile(s, d + 1, IsDigit) else d;
      var value := Decimal(s[q..d]) as real + (if f > d then Fraction(s[d + 1..f]) else 0.0);
      var u := SkipWhile(s, f, IsSpace);
      if u + 1 < |s| && LowerChar(s[u]) == 'k' && LowerChar(s[u + 1]) == 'm' && EndsWord(s, u + 2) then
        Some(Quantity(value, true))
      else if u < |s| && LowerChar(s[u]) == 'm' && EndsWord(s, u + 1) then
        Some(Quantity(value, false))
      else None
  }

  /** `re.search(r"-?\s*(\d+(?:\.\d+)?)\s*(km|m)\b", line, re.IGNORECASE)`
      reduced to its groups. The optional '-' and blanks in front cannot
      start a number, so the leftmost match holds the leftmost index at
      which the number-and-unit part matches. */
  function Search(s: string, from: nat): (r: Option<(nat, Quantity)>)
    requires from <= |s|
    ensures r.Some? ==> from <= r.value.0 < |s| && QuantityAt(s, r.value.0) == Some(r.value.1)
    ensures r.Some? ==> forall q :: from <= q < r.value.0 ==> QuantityAt(s, q).None?
    ensures r.None? ==> forall q :: from <= q <= |s| ==> QuantityAt(s, q).None?
    decreases |s| - from
  {
    if from == |s| then None
    else
      var x := QuantityAt(s, from);
      if x.Some? then Some((from, x.value)) else Search(s, from + 1)
  }

  const ReachDestination: string := "reach destination"

  /** `re.match(r"\d+\.\s*reach destination", line, re.IGNORECASE)`:
      anchored at the start of the (stripped) line. */
  predicate IsReachLine(s: string) {
    var d := SkipWhile(s, 0, IsDigit);
    0 < d < |s| && s[d] == '.' && IsPrefix(ReachDestination, Lower(s[SkipWhile(s, d + 1, IsSpace)..]))
  }

  /** The action is chosen from the lowered line: "left" first, then
      "right", otherwise straight. */
  function ActionOf(line: string): Action {
    var lower := Lower(line);
    if Contains(lower, "left") then Left
    else if Contains(lower, "right") then Right
    else Straight
  }

  /** One pass of the loop body on one line of the text. */
  function ParseLine(raw: string): Option<Direction>
  {
    var line := Strip(raw);
    if line == [] || IsReachLine(line) then None
    else match Search(line, 0)
      case None => None
      case Some((_, x)) => Some(Direction(ActionOf(line), Meters(x)))
  }

  /** A line yields an instruction iff, once stripped, it is not blank,
      not a numbered "reach destination" line, and holds a number with a
      unit somewhere. */
  lemma ParseLineYields(raw: string)
    ensures var line := Strip(raw);
      ParseLine(raw).Some? <==> line != [] && !IsReachLine(line) &&
                                exists q :: 0 <= q <= |line| && QuantityAt(line, q).Some?
  {
  }

  /** The action is "left" whenever the line mentions left, "right" only
      when it mentions right but not left, and straight otherwise. */
  lemma ParseLineAction(raw: string)
    requires ParseLine(raw).Some?
    ensures var lower := Lower(Strip(raw)); var a := ParseLine(raw).value.action;
      (a == Left <==> Contains(lower, "left")) &&
      (a == Right <==> !Contains(lower, "left") && Contains(lower, "right")) &&
      (a == Straight <==> !Contains(lower, "left") && !Contains(lower, "right"))
  {
  }

  /** The distance is that of the leftmost number-and-unit match, in
      metres. */
  lemma ParseLineDistance(raw: string)
    requires ParseLine(raw).Some?
    ensures var line := Strip(raw);
      exists q :: 0 <= q < |line| && QuantityAt(line, q).Some? &&
        ParseLine(raw).value.distance == Meters(QuantityAt(line, q).value) &&
        forall p :: 0 <= p < q ==> QuantityAt(line, p).None?
  {
    var line := Strip(raw);
    var q := Search(line, 0).value.0;
    assert QuantityAt(line, q).Some?;
  }

  /** What each line parses to, line by line. */
  function ParseAll(lines: seq<string>): (r: seq<Option<Direction>>)
    ensures |r| == |lines|
    ensures forall i :: 0 <= i < |lines| ==> r[i] == ParseLine(lines[i])
  {
    if lines == [] then [] else ParseAll(lines[..|lines| - 1]) + [ParseLine(lines[|lines| - 1])]
  }

  /** The instructions a sequence of parsed lines contributes, in order. */
  function Collect(parsed: seq<Option<Direction>>): seq<Direction>
  {
    if parsed == [] then []
    else
      var prefix := Collect(parsed[..|parsed| - 1]);
      match parsed[|parsed| - 1]
        case None => prefix
        case Some(d) => prefix + [d]
  }

  /** The directions the loop has appended after reading `lines`. */
  function DirectionsOf(lines: seq<string>): seq<Direction>
  {
    Collect(ParseAll(lines))
  }

  lemma CollectStep(lines: seq<string>, i: nat)
    requires i < |lines|
    ensures DirectionsOf(lines[..i + 1]) ==
      DirectionsOf(lines[..i]) + (if ParseLine(lines[i]).Some? then [ParseLine(lines[i]).value] else [])
  {
    var p := ParseAll(lines[..i + 1]);
    assert p[..i] == ParseAll(lines[..i]);
  }

  /** `parse_directions(text)` */
  method ParseDirections(text: string) returns (directions: seq<Direction>)
    ensures directions == DirectionsOf(SplitLines(text))
  {
    var lines := SplitLines(text);
    directions := [];
    var i := 0;
    while i < |lines|
      invariant 0 <= i <= |lines|
      invariant directions == DirectionsOf(lines[..i])
    {
      CollectStep(lines, i);
      var d := ParseLine(lines[i]);
      if d.Some? {
        directions := directions + [d.value];
      }
      i := i + 1;
    }
    assert lines[..|lines|] == lines;
  }

  /** The indices of the parsed lines that yield an instruction, ascending. */
  function Origins(parsed: seq<Option<Direction>>): seq<nat>
  {
    if parsed == [] then []
    else
      var prefix := Origins(parsed[..|parsed| - 1]);
      if parsed[|parsed| - 1].Some? then prefix + [|parsed| - 1] else prefix
  }

  /** The origins are ascending line indices, and every line that parsed
      to an instruction is among them. */
  lemma {:induction false} OriginsAscending(parsed: seq<Option<Direction>>)
    ensures |Origins(parsed)| <= |parsed|
    ensures forall k :: 0 <= k < |Origins(parsed)| ==> Origins(parsed)[k] < |parsed|
    ensures forall k, j :: 0 <= k < j < |Origins(parsed)| ==> Origins(parsed)[k] < Origins(parsed)[j]
    ensures forall i :: 0 <= i < |parsed| && parsed[i].Some? ==> i in Origins(parsed)
  {
    if parsed != [] {
      var init := parsed[..|parsed| - 1];
      var last := |parsed| - 1;
      OriginsAscending(init);
      assert forall i :: 0 <= i < last ==> parsed[i] == init[i];
      if parsed[last].Some? {
        assert Origins(parsed) == Origins(init) + [last];
      } else {
        assert Origins(parsed) == Origins(init);
      }
    }
  }

  /** The k-th collected instruction is what the k-th origin parsed to. */
  lemma {:induction false} CollectAtOrigins(parsed: seq<Option<Direction>>)
    ensures |Collect(parsed)| == |Origins(parsed)|
    ensures forall k :: 0 <= k < |Origins(parsed)| ==>
      0 <= Origins(parsed)[k] < |parsed| && parsed[Origins(parsed)[k]] == Some(Collect(parsed)[k])
  {
    if parsed != [] {
      var init := parsed[..|parsed| - 1];
      var last := |parsed| - 1;
      CollectAtOrigins(init);
      var o, c := Origins(init), Collect(init);
      assert forall i :: 0 <= i < last ==> parsed[i] == init[i];
      if parsed[last].Some? {
        assert Origins(parsed) == o + [last];
        assert Collect(parsed) == c + [parsed[last].value];
      } else {
        assert Origins(parsed) == o;
        assert Collect(parsed) == c;
      }
    }
  }

  /** At most one instruction per line, in the order of the lines: the
      k-th instruction is what line Origins(...)[k] parses to, the origins
      ascend strictly, and every line that parses is one of them. */
  lemma DirectionsFollowLines(lines: seq<string>)
    ensures var o := Origins(ParseAll(lines));
      |DirectionsOf(lines)| == |o| <= |lines| &&
      (forall k :: 0 <= k < |o| ==> o[k] < |lines| && ParseLine(lines[o[k]]) == Some(DirectionsOf(lines)[k])) &&
      (forall k, j :: 0 <= k < j < |o| ==> o[k] < o[j]) &&
      (forall i :: 0 <= i < |lines| && ParseLine(lines[i]).Some? ==> i in o)
  {
    OriginsAscending(ParseAll(lines));
    CollectAtOrigins(ParseAll(lines));
  }

  /** "meters" is not a unit: the "m" is followed by a word character. */
  lemma MetersIsNotAUnit()
    ensures QuantityAt("200 meters", 0) == None
  {
    var s := "200 meters";
    assert SkipWhile(s, 0, IsDigit) == 3 by { assert !IsDigit(s[3]); }
    assert SkipWhile(s, 3, IsSpace) == 4 by { assert !IsSpace(s[4]); }
    assert !EndsWord(s, 5) && LowerChar(s[4]) == 'm' && LowerChar(s[5]) != 'm';
  }

  /** A kilometre figure with a fraction, in upper case. */
  lemma KilometresWithFraction()
    ensures QuantityAt("1.5 KM", 0) == Some(Quantity(1.5, true))
    ensures Meters(Quantity(1.5, true)) == 1500.0
  {
    var s := "1.5 KM";
    assert SkipWhile(s, 0, IsDigit) == 1 by { assert !IsDigit(s[1]); }
    assert SkipWhile(s, 2, IsDigit) == 3 by { assert !IsDigit(s[3]); }
    assert SkipWhile(s, 3, IsSpace) == 4 by { assert !IsSpace(s[4]); }
    assert s[0..1] == "1" && s[2..3] == "5";
    assert Decimal("1") == 1 && Decimal("5") == 5;
    assert Fraction("5") == 0.5;
    assert LowerChar(s[4]) == 'k' && LowerChar(s[5]) == 'm' && EndsWord(s, 6);
  }
}
