/** Python string operations the modelled code relies on, over
    `seq<char>`: whitespace stripping, ASCII lower-casing, substring
    search, `find` and `split` on one separator character. */
module Text {
  import opened Wrappers

  /** The ASCII characters Python's `str.isspace` (and `\s` in a `str`
      regular expression) accepts: space, tab, line feed, vertical tab, form
      feed, carriage return and the separators 0x1C to 0x1F. */
  predicate IsSpace(c: char) {
    c == ' ' || c == '\t' || c == '\n' || c == '\r' || c == '\U{0B}' || c == '\U{0C}' ||
    '\U{1C}' <= c <= '\U{1F}'
  }

  /** The ASCII characters JavaScript's `trim` and `parseInt` skip as
      white space or line terminators: space, tab, line feed, vertical
      tab, form feed and carriage return. */
  predicate IsJsSpace(c: char) {
    c == ' ' || c == '\t' || c == '\n' || c == '\r' || c == '\U{0B}' || c == '\U{0C}'
  }

  predicate IsDigit(c: char) { '0' <= c <= '9' }

  /** `s.lstrip(chars)` where `drop` tells which characters are stripped. */
  function TrimLeftWith(s: string, drop: char -> bool): (r: string)
    ensures |r| <= |s|
    ensures r != [] ==> !drop(r[0])
    decreases |s|
  {
    if s != [] && drop(s[0]) then TrimLeftWith(s[1..], drop) else s
  }

  /** `lstrip` leaves a suffix. */
  lemma {:induction false} TrimLeftSuffix(s: string, drop: char -> bool)
    ensures TrimLeftWith(s, drop) == s[|s| - |TrimLeftWith(s, drop)|..]
    decreases |s|
  {
    if s != [] && drop(s[0]) {
      TrimLeftSuffix(s[1..], drop);
    }
  }

  /** `rstrip` leaves a prefix. */
  lemma {:induction false} TrimRightPrefix(s: string, drop: char -> bool)
    ensures TrimRightWith(s, drop) == s[..|TrimRightWith(s, drop)|]
    decreases |s|
  {
    if s != [] && drop(s[|s| - 1]) {
      TrimRightPrefix(s[..|s| - 1], drop);
    }
  }

  /** What `lstrip` removes is made of stripped characters only. */
  lemma {:induction false} TrimLeftDropped(s: string, drop: char -> bool)
    ensures forall i :: 0 <= i < |s| - |TrimLeftWith(s, drop)| ==> drop(s[i])
    decreases |s|
  {
    if s != [] && drop(s[0]) {
      TrimLeftDropped(s[1..], drop);
      assert forall i :: 1 <= i < |s| - |TrimLeftWith(s, drop)| ==> s[i] == s[1..][i - 1];
    }
  }

  /** `s.rstrip(chars)`. */
  function TrimRightWith(s: string, drop: char -> bool): (r: string)
    ensures |r| <= |s|
    ensures r != [] ==> !drop(r[|r| - 1])
    decreases |s|
  {
    if s != [] && drop(s[|s| - 1]) then TrimRightWith(s[..|s| - 1], drop) else s
  }

  /** `s.strip(chars)`: a contiguous piece of `s` that neither starts nor
      ends with a stripped character. */
  function StripWith(s: string, drop: char -> bool): (r: string)
    ensures |r| <= |s|
    ensures r != [] ==> !drop(r[0]) && !drop(r[|r| - 1])
  {
    var left := TrimLeftWith(s, drop);
    TrimRightPrefix(left, drop);
    TrimRightWith(left, drop)
  }

  /** Python's `s.strip()`. */
  function Strip(s: string): (r: string)
    ensures |r| <= |s|
    ensures r != [] ==> !IsSpace(r[0]) && !IsSpace(r[|r| - 1])
  {
    StripWith(s, IsSpace)
  }

  /** JavaScript's `s.trim()`. */
  function Trim(s: string): (r: string)
    ensures |r| <= |s|
    ensures r != [] ==> !IsJsSpace(r[0]) && !IsJsSpace(r[|r| - 1])
  {
    StripWith(s, IsJsSpace)
  }

  lemma {:induction false} TrimLeftIdempotent(s: string, drop: char -> bool)
    ensures TrimLeftWith(TrimLeftWith(s, drop), drop) == TrimLeftWith(s, drop)
    decreases |s|
  {
    if s != [] && drop(s[0]) {
      TrimLeftIdempotent(s[1..], drop);
    }
  }

  function LowerChar(c: char): (r: char)
    ensures 'A' <= c <= 'Z' ==> r as int == c as int + 32
    ensures !('A' <= c <= 'Z') ==> r == c
  {
    if 'A' <= c <= 'Z' then (c as int + 32) as char else c
  }

  /** `s.lower()` restricted to ASCII letters. */
  function Lower(s: string): (r: string)
    ensures |r| == |s|
    ensures forall i :: 0 <= i < |s| ==> r[i] == LowerChar(s[i])
  {
    seq(|s|, i requires 0 <= i < |s| => LowerChar(s[i]))
  }

  predicate IsPrefix(p: string, s: string) {
    |p| <= |s| && s[..|p|] == p
  }

  predicate IsSuffix(p: string, s: string) {
    |p| <= |s| && s[|s| - |p|..] == p
  }

  /** `sub` occurs in `s` starting at index `i`. */
  predicate OccursAt(s: string, sub: string, i: int) {
    0 <= i <= |s| - |sub| && s[i..i + |sub|] == sub
  }

  /** Python's `sub in s`. */
  predicate Contains(s: string, sub: string) {
    exists i | 0 <= i <= |s| - |sub| :: OccursAt(s, sub, i)
  }

  lemma ContainsAt(s: string, sub: string, i: int)
    requires OccursAt(s, sub, i)
    ensures Contains(s, sub)
  {
  }

  /** `s.find(c, start)`: the first index at or after `start` holding `c`,
      or -1. */
  function FindFrom(s: string, c: char, start: nat): (r: int)
    ensures r == -1 || start <= r < |s|
    ensures r == -1 ==> forall i :: start <= i < |s| ==> s[i] != c
    ensures r != -1 ==> s[r] == c && forall i :: start <= i < r ==> s[i] != c
    decreases |s| - start
  {
    if start >= |s| then -1
    else if s[start] == c then start
    else FindFrom(s, c, start + 1)
  }

  /** `s.split(sep)` for a one-character separator: the pieces between
      successive separators, never empty as a list. */
  function Split(s: string, sep: char): (r: seq<string>)
    ensures |r| >= 1
    ensures forall i :: 0 <= i < |r| ==> sep !in r[i]
    decreases |s|
  {
    var k := FindFrom(s, sep, 0);
    if k == -1 then [s] else [s[..k]] + Split(s[k + 1..], sep)
  }

  /** `sep.join(parts)` for a one-character separator. */
  function Join(parts: seq<string>, sep: char): string
  {
    if |parts| == 0 then []
    else if |parts| == 1 then parts[0]
    else parts[0] + [sep] + Join(parts[1..], sep)
  }

  lemma {:induction false} JoinSplit(s: string, sep: char)
    ensures Join(Split(s, sep), sep) == s
    decreases |s|
  {
    var k := FindFrom(s, sep, 0);
    if k != -1 {
      JoinSplitStep(s, sep, k);
      JoinSplit(s[k + 1..], sep);
      assert s == s[..k] + [sep] + s[k + 1..];
    }
  }

  /** Splitting at the first separator and joining again puts it back. */
  lemma JoinSplitStep(s: string, sep: char, k: int)
    requires k == FindFrom(s, sep, 0) && k != -1
    ensures Join(Split(s, sep), sep) == s[..k] + [sep] + Join(Split(s[k + 1..], sep), sep)
  {
    var rest := Split(s[k + 1..], sep);
    var parts := [s[..k]] + rest;
    assert Split(s, sep) == parts;
    assert parts[1..] == rest;
  }

  lemma {:induction false} SplitJoin(parts: seq<string>, sep: char)
    requires |parts| >= 1
    requires forall i :: 0 <= i < |parts| ==> sep !in parts[i]
    ensures Split(Join(parts, sep), sep) == parts
    decreases |parts|
  {
    if |parts| > 1 {
      var s := Join(parts, sep);
      assert s == parts[0] + [sep] + Join(parts[1..], sep);
      var k := FindFrom(s, sep, 0);
      assert s[|parts[0]|] == sep;
      assert k == |parts[0]|;
      assert s[..k] == parts[0];
      assert s[k + 1..] == Join(parts[1..], sep);
      SplitJoin(parts[1..], sep);
    } else {
      var k := FindFrom(parts[0], sep, 0);
      assert k == -1;
    }
  }

  /** Text that neither starts nor ends with a stripped character is its
      own strip. */
  lemma StripWithUnchanged(s: string, drop: char -> bool)
    requires s != [] ==> !drop(s[0]) && !drop(s[|s| - 1])
    ensures StripWith(s, drop) == s
  {
    assert TrimLeftWith(s, drop) == s;
    assert TrimRightWith(s, drop) == s;
  }

  /** Stripping removes one stripped character at each end of a text
      that does not itself start or end with one. */
  lemma StripWithEnclosed(first: char, inner: string, last: char, drop: char -> bool)
    requires drop(first) && drop(last)
    requires inner != [] && !drop(inner[0]) && !drop(inner[|inner| - 1])
    ensures StripWith([first] + inner + [last], drop) == inner
  {
    var s := [first] + inner + [last];
    assert s[1..] == inner + [last];
    assert TrimLeftWith(s[1..], drop) == inner + [last];
    assert (inner + [last])[..|inner|] == inner;
    assert TrimRightWith(inner, drop) == inner;
  }

  /** Two separator-free pieces joined by the separator split back. */
  lemma SplitPair(a: string, b: string, sep: char)
    requires sep !in a && sep !in b
    ensures Split(a + [sep] + b, sep) == [a, b]
  {
    assert [a, b][1..] == [b];
    assert Join([a, b], sep) == a + [sep] + b;
    SplitJoin([a, b], sep);
  }

  /** Stripping is trimming on the left, then on the right. */
  lemma StripWithTrims(s: string, drop: char -> bool)
    ensures StripWith(s, drop) == TrimRightWith(TrimLeftWith(s, drop), drop)
  {
  }

  /** Stripping is a slice: it adds no character. */
  lemma StripWithin(s: string)
    ensures forall c :: c in Strip(s) ==> c in s
  {
    var left := TrimLeftWith(s, IsSpace);
    TrimLeftSuffix(s, IsSpace);
    TrimRightPrefix(left, IsSpace);
    StripWithTrims(s, IsSpace);
    var r := Strip(s);
    forall c | c in r
      ensures c in s
    {
      var k :| 0 <= k < |r| && r[k] == c;
      assert left[k] == c;
      assert s[|s| - |left| + k] == c;
    }
  }

  /** A stripped character in front of a text is trimmed along with the
      text's own. */
  lemma TrimLeftCons(c: char, s: string, drop: char -> bool)
    requires drop(c)
    ensures TrimLeftWith([c] + s, drop) == TrimLeftWith(s, drop)
  {
    assert ([c] + s)[1..] == s;
  }

  /** A piece written between two others occurs where it was written. */
  lemma OccursBetween(a: string, sub: string, b: string)
    ensures OccursAt(a + sub + b, sub, |a|)
  {
    assert (a + sub + b)[|a|..|a| + |sub|] == sub;
  }

  /** `find` returns the first occurrence at or after its start. */
  lemma FindSubIs(s: string, sub: string, start: nat, k: nat)
    requires start <= k && OccursAt(s, sub, k)
    requires forall i :: start <= i < k ==> !OccursAt(s, sub, i)
    ensures FindSub(s, sub, start) == k
  {
  }

  /** The first position at or after `start` holding `c` is what
      `find` returns. */
  lemma FindFromIs(s: string, c: char, start: nat, k: nat)
    requires start <= k < |s| && s[k] == c
    requires forall i :: start <= i < k ==> s[i] != c
    ensures FindFrom(s, c, start) == k
  {
  }

  /** Splitting at a first separator. */
  lemma SplitCons(a: string, b: string, sep: char)
    requires sep !in a
    ensures Split(a + [sep] + b, sep) == [a] + Split(b, sep)
  {
    var s := a + [sep] + b;
    FindFromIs(s, sep, 0, |a|);
    assert s[..|a|] == a;
    assert s[|a| + 1..] == b;
  }

  /** A text without the separator splits into itself. */
  lemma SplitNone(a: string, sep: char)
    requires sep !in a
    ensures Split(a, sep) == [a]
  {
  }

  /** Text that neither starts nor ends with whitespace is its own strip. */
  lemma StripUnchanged(s: string)
    requires s != [] ==> !IsSpace(s[0]) && !IsSpace(s[|s| - 1])
    ensures Strip(s) == s
  {
    assert TrimLeftWith(s, IsSpace) == s;
  }

  predicate AllDigits(d: string) {
    forall i :: 0 <= i < |d| ==> IsDigit(d[i])
  }

  /** `int(d)` for a string of ASCII digits. */
  function Decimal(d: string): (v: nat)
    requires AllDigits(d)
  {
    if d == [] then 0
    else
      assert IsDigit(d[|d| - 1]);
      Decimal(d[..|d| - 1]) * 10 + (d[|d| - 1] as int - '0' as int)
  }

  /** Python's `str` on a natural number: its decimal digits. */
  function NatDigits(n: nat): (r: string)
    ensures r != [] && forall i :: 0 <= i < |r| ==> IsDigit(r[i])
  {
    var d := ['0' + (n % 10) as char];
    if n < 10 then d else NatDigits(n / 10) + d
  }

  /** `int(str(n)) == n`. */
  lemma {:induction false} DecimalNatDigits(n: nat)
    ensures Decimal(NatDigits(n)) == n
  {
    var r := NatDigits(n);
    if n >= 10 {
      DecimalNatDigits(n / 10);
      assert r[..|r| - 1] == NatDigits(n / 10);
    }
  }

  /** The first whitespace-separated word, as `s.split()[0]` gives it;
      None where Python raises IndexError (blank text). */
  function FirstWord(s: string): (r: Option<string>)
    ensures r.None? <==> forall i :: 0 <= i < |s| ==> IsSpace(s[i])
    ensures r.Some? ==> r.value != [] && Contains(s, r.value)
    ensures r.Some? ==> forall i :: 0 <= i < |r.value| ==> !IsSpace(r.value[i])
  {
    var t := TrimLeftWith(s, IsSpace);
    TrimLeftDropped(s, IsSpace);
    TrimLeftSuffix(s, IsSpace);
    if t == [] then None
    else
      var w := TakeWord(t);
      assert t == s[|s| - |t|..];
      assert s[|s| - |t|..|s| - |t| + |w|] == w;
      ContainsAt(s, w, |s| - |t|);
      Some(w)
  }

  /** The longest prefix of `s` without whitespace. */
  function TakeWord(s: string): (r: string)
    ensures IsPrefix(r, s)
    ensures forall i :: 0 <= i < |r| ==> !IsSpace(s[i])
    ensures |r| < |s| ==> IsSpace(s[|r|])
  {
    if s == [] || IsSpace(s[0]) then [] else [s[0]] + TakeWord(s[1..])
  }

  /** Python's `<` on strings: lexicographic by code point, a proper
      prefix being smaller. */
  predicate StrLess(a: string, b: string) {
    if a == [] then b != []
    else if b == [] then false
    else if a[0] != b[0] then a[0] < b[0]
    else StrLess(a[1..], b[1..])
  }

  lemma {:induction false} StrLessTransitive(a: string, b: string, c: string)
    requires StrLess(a, b) && StrLess(b, c)
    ensures StrLess(a, c)
    decreases |a|
  {
    if a != [] && b != [] && c != [] && a[0] == b[0] && b[0] == c[0] {
      StrLessTransitive(a[1..], b[1..], c[1..]);
    }
  }

  lemma {:induction false} StrLessIrreflexive(a: string)
    ensures !StrLess(a, a)
    decreases |a|
  {
    if a != [] {
      StrLessIrreflexive(a[1..]);
    }
  }

  /** Python's `int(s)` on a string: surrounding whitespace, an optional
      sign, then decimal digits; None where `int` raises ValueError. */
  function ParseInt(s: string): Option<int>
  {
    var t := Strip(s);
    var body := if t != [] && (t[0] == '+' || t[0] == '-') then t[1..] else t;
    if body == [] || !AllDigits(body) then None
    else
      var v: int := Decimal(body);
      Some(if t[0] == '-' then -v else v)
  }

  /** `int(str(n)) == n`, also for negative numbers. */
  lemma ParseIntDigits(n: int)
    ensures ParseInt(IntString(n)) == Some(n)
  {
    if n < 0 {
      ParseIntNegative(-n);
    } else {
      ParseIntNatural(n);
    }
  }

  lemma ParseIntNatural(n: nat)
    ensures ParseInt(NatDigits(n)) == Some(n)
  {
    var d := NatDigits(n);
    DecimalNatDigits(n);
    assert IsDigit(d[0]) && IsDigit(d[|d| - 1]);
    StripUnchanged(d);
  }

  lemma ParseIntNegative(m: nat)
    requires m > 0
    ensures ParseInt("-" + NatDigits(m)) == Some(0 - m)
  {
    var d := NatDigits(m);
    DecimalNatDigits(m);
    var s := "-" + d;
    assert s[|s| - 1] == d[|d| - 1];
    StripUnchanged(s);
    assert s[1..] == d;
  }

  /** `int('')` raises: an empty number is never read. */
  lemma ParseIntEmpty()
    ensures ParseInt("") == None
  {
    StripUnchanged("");
  }

  /** Python's `str(n)` for any integer. */
  function IntString(n: int): (r: string)
    ensures r != []
  {
    if n < 0 then "-" + NatDigits(-n) else NatDigits(n)
  }

  /** `s.find(sub, start)`: the first index at or after `start` where
      `sub` occurs, or -1. */
  function FindSub(s: string, sub: string, start: nat): (r: int)
    ensures r == -1 || (start <= r && OccursAt(s, sub, r))
    ensures r == -1 ==> forall i :: start <= i ==> !OccursAt(s, sub, i)
    ensures r != -1 ==> forall i :: start <= i < r ==> !OccursAt(s, sub, i)
    decreases |s| - start
  {
    if start + |sub| > |s| then -1
    else if OccursAt(s, sub, start) then start
    else FindSub(s, sub, start + 1)
  }

  /** The first index at or after `i` that is not whitespace, or `|s|`:
      where a greedy `\s*` starting at `i` stops. */
  function SkipSpaces(s: string, i: nat): (j: nat)
    requires i <= |s|
    ensures i <= j <= |s|
    ensures forall k :: i <= k < j ==> IsSpace(s[k])
    ensures j < |s| ==> !IsSpace(s[j])
    decreases |s| - i
  {
    if i < |s| && IsSpace(s[i]) then SkipSpaces(s, i + 1) else i
  }

  /** The longest piece of `s` from `i` on without a line break: what
      `(.*)` matches there without DOTALL. */
  function LineFrom(s: string, i: nat): (r: string)
    requires i <= |s|
    ensures '\n' !in r && IsPrefix(r, s[i..])
    ensures i + |r| < |s| ==> s[i + |r|] == '\n'
  {
    var k := FindFrom(s, '\n', i);
    if k == -1 then
      assert forall c | c in s[i..] :: c != '\n';
      s[i..]
    else
      assert forall c | c in s[i..k] :: c != '\n';
      s[i..k]
  }
}
