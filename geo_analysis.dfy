/** Scoring a geolocation run (models/geolocation/visualization.py and
    models/geolocation/analysis.py): the distance level a prediction
    reaches, the standpoints excluded on the command line, the text
    normalisation used to compare place names, and the match rates. */
module GeoAnalysis {
  import opened Wrappers
  import opened Text
  import opened Json
  import GeoUtils

  /** The level thresholds, in kilometres, finest first. */
  const Thresholds: seq<real> := [1.0, 25.0, 200.0, 750.0, 2500.0]
  const ThresholdNames: seq<string> := [
    "street level (1km)",
    "city level (25km)",
    "region level (200km)",
    "country level (750km)",
    "continent level (2500km)"
  ]
  const Beyond := "beyond continent level"

  /** The first threshold, from the `i`-th on, that `km` does not exceed;
      5 when it exceeds them all. */
  function FirstWithin(km: real, i: nat): (r: nat)
    requires i <= 5
    ensures i <= r <= 5
    ensures r < 5 ==> km <= Thresholds[r]
    ensures forall j :: i <= j < r ==> Thresholds[j] < km
    decreases 5 - i
  {
    if i == 5 then 5 else if km <= Thresholds[i] then i else FirstWithin(km, i + 1)
  }

  /** The level index of a distance: 0 (street) to 4 (continent), 5 for
      beyond; an infinite distance is never within a threshold. */
  function Level(distance: GeoUtils.Distance): (r: nat)
    ensures r <= 5
  {
    match distance
    case Km(km) => FirstWithin(km, 0)
    case Infinite => 5
  }

  function LevelName(level: nat): string
    requires level <= 5
  {
    if level < 5 then ThresholdNames[level] else Beyond
  }

  /** `determine_threshold`: the name of the first threshold the distance
      does not exceed. */
  method DetermineThreshold(distance: GeoUtils.Distance) returns (name: string)
    ensures name == LevelName(Level(distance))
  {
    for i := 0 to 5
      invariant distance.Km? ==> FirstWithin(distance.km, 0) == FirstWithin(distance.km, i)
    {
      if distance.Km? && distance.km <= Thresholds[i] {
        return ThresholdNames[i];
      }
    }
    return Beyond;
  }

  /** Level `i` is exactly the distances in (Thresholds[i-1], Thresholds[i]]:
      both boundaries of a level are decided by `<=`. */
  lemma LevelExact(km: real, i: nat)
    requires i < 5
    ensures Level(GeoUtils.Km(km)) == i <==> (km <= Thresholds[i] && (i == 0 || Thresholds[i - 1] < km))
  {
    var r := FirstWithin(km, 0);
    if km <= Thresholds[i] && (i == 0 || Thresholds[i - 1] < km) {
      if r < i {
        ThresholdsIncrease(r, i - 1);
      }
    }
  }

  lemma ThresholdsIncrease(i: nat, j: nat)
    requires i <= j < 5
    ensures Thresholds[i] <= Thresholds[j]
  {
  }

  /** Up to one kilometre is street level. */
  lemma StreetLevel(km: real)
    requires km <= 1.0
    ensures LevelName(Level(GeoUtils.Km(km))) == "street level (1km)"
  {
    LevelExact(km, 0);
  }

  /** Each threshold belongs to its own level. */
  lemma BoundaryInclusive(i: nat)
    requires i < 5
    ensures LevelName(Level(GeoUtils.Km(Thresholds[i]))) == ThresholdNames[i]
  {
    LevelExact(Thresholds[i], i);
  }

  /** More than 2500 km, or no distance at all, is beyond continent
      level. */
  lemma BeyondContinent(distance: GeoUtils.Distance)
    requires distance.Infinite? || distance.km > 2500.0
    ensures LevelName(Level(distance)) == Beyond
  {
    if distance.Km? {
      var r := FirstWithin(distance.km, 0);
      if r < 5 {
        ThresholdsIncrease(r, 4);
      }
    }
  }

  lemma {:induction false} FirstWithinMonotone(x: real, y: real, i: nat)
    requires x <= y && i <= 5
    ensures FirstWithin(x, i) <= FirstWithin(y, i)
    decreases 5 - i
  {
    if i < 5 && x > Thresholds[i] {
      FirstWithinMonotone(x, y, i + 1);
    }
  }

  /** A larger distance never gets a finer level. */
  lemma LevelMonotone(a: GeoUtils.Distance, b: GeoUtils.Distance)
    requires b.Infinite? || (a.Km? && a.km <= b.km)
    ensures Level(a) <= Level(b)
  {
    if b.Km? {
      FirstWithinMonotone(a.km, b.km, 0);
    }
  }

  /** `if x.strip()`: a part with nothing but whitespace is skipped. */
  predicate Blank(part: string) {
    forall k :: 0 <= k < |part| ==> IsSpace(part[k])
  }

  /** `int(x)` succeeds on every part that is kept. */
  predicate Parses(part: string, read: string -> Option<int>) {
    Blank(part) || read(part).Some?
  }

  /** The part is kept and reads as `n`. */
  predicate Names(part: string, n: int, read: string -> Option<int>) {
    !Blank(part) && read(part) == Some(n)
  }

  /** Every non-blank part is an int. */
  predicate AllParse(parts: seq<string>, read: string -> Option<int>) {
    forall i :: 0 <= i < |parts| ==> Parses(parts[i], read)
  }

  /** Some non-blank part is the int `n`. */
  predicate Listed(parts: seq<string>, n: int, read: string -> Option<int>) {
    exists i :: 0 <= i < |parts| && Names(parts[i], n, read)
  }

  lemma AllParseStep(parts: seq<string>, read: string -> Option<int>)
    requires parts != []
    ensures AllParse(parts, read) <==> AllParse(parts[..|parts| - 1], read) && Parses(parts[|parts| - 1], read)
  {
    var init := parts[..|parts| - 1];
    assert forall i :: 0 <= i < |init| ==> init[i] == parts[i];
  }

  /** Adding a part adds its int, if it has one. */
  lemma ListedStep(parts: seq<string>, n: int, read: string -> Option<int>)
    requires parts != []
    ensures Listed(parts, n, read) <==> Listed(parts[..|parts| - 1], n, read) || Names(parts[|parts| - 1], n, read)
  {
    var init := parts[..|parts| - 1];
    if Listed(parts, n, read) {
      var i :| 0 <= i < |parts| && Names(parts[i], n, read);
      if i < |init| {
        assert init[i] == parts[i];
      }
    }
    if Listed(init, n, read) {
      var i :| 0 <= i < |init| && Names(init[i], n, read);
      assert parts[i] == init[i];
    }
  }

  /** `{int(x) for x in parts if x.strip()}`: the ints of the non-blank
      parts, or the ValueError of the first that is not one. `read` is
      `int()`; `load_exclude_ids` passes `ParseInt`. */
  function ExcludeFrom(parts: seq<string>, read: string -> Option<int>): (r: Result<set<int>>)
    ensures r.Ok? <==> AllParse(parts, read)
    ensures r.Ok? ==> forall n :: n in r.value <==> Listed(parts, n, read)
    ensures r.Err? ==> r.error.ValueError?
  {
    if parts == [] then Ok({})
    else
      var init := parts[..|parts| - 1];
      var last := parts[|parts| - 1];
      AllParseStep(parts, read);
      assert forall n :: Listed(parts, n, read) <==> Listed(init, n, read) || Names(last, n, read) by {
        forall n
          ensures Listed(parts, n, read) <==> Listed(init, n, read) || Names(last, n, read)
        {
          ListedStep(parts, n, read);
        }
      }
      match ExcludeFrom(init, read)
      case Err(e) => Err(e)
      case Ok(ids) =>
        if Blank(last) then Ok(ids)
        else match read(last)
          case None => Err(ValueError("invalid literal for int() with base 10: '" + last + "'"))
          case Some(n) => Ok(ids + {n})
  }

  /** `load_exclude_ids`: nothing is excluded without the flag or with an
      empty one; otherwise the ints of its comma-separated parts. */
  function LoadExcludeIds(flag: Option<string>): (r: Result<set<int>>)
    ensures flag.None? || flag.value == "" ==> r == Ok({})
    ensures flag.Some? && flag.value != "" ==> r == ExcludeFrom(Split(flag.value, ','), ParseInt)
  {
    if flag.None? || flag.value == "" then Ok({}) else ExcludeFrom(Split(flag.value, ','), ParseInt)
  }

  /** `str(n)` for each number, as written on the command line. */
  function Written(ns: seq<int>): (r: seq<string>)
    ensures |r| == |ns| && forall i :: 0 <= i < |ns| ==> r[i] == IntString(ns[i])
  {
    seq(|ns|, i requires 0 <= i < |ns| => IntString(ns[i]))
  }

  /** A written number has no comma and is not blank. */
  lemma WrittenPart(n: int)
    ensures ',' !in IntString(n) && !Blank(IntString(n))
  {
    var d := NatDigits(if n < 0 then -n else n);
    assert forall c | c in d :: IsDigit(c);
    if n < 0 {
      assert IntString(n) == "-" + d;
      assert !IsSpace(IntString(n)[0]);
    } else {
      assert !IsSpace(d[0]);
    }
  }

  /** Each written number is a comma-free part that reads back as itself. */
  lemma WrittenParts(ns: seq<int>)
    ensures forall i :: 0 <= i < |ns| ==> ',' !in Written(ns)[i] && Names(Written(ns)[i], ns[i], ParseInt)
  {
    forall i | 0 <= i < |ns|
      ensures ',' !in Written(ns)[i] && Names(Written(ns)[i], ns[i], ParseInt)
    {
      WrittenPart(ns[i]);
      ParseIntDigits(ns[i]);
    }
  }

  /** Parts that each name one number exclude exactly those numbers. */
  lemma ExcludeNamed(parts: seq<string>, ns: seq<int>, read: string -> Option<int>)
    requires |parts| == |ns| && forall i :: 0 <= i < |ns| ==> Names(parts[i], ns[i], read)
    ensures ExcludeFrom(parts, read) == Ok(set n | n in ns)
  {
    assert AllParse(parts, read);
    var r := ExcludeFrom(parts, read);
    forall n
      ensures n in r.value <==> n in ns
    {
      if n in ns {
        var i :| 0 <= i < |ns| && ns[i] == n;
        assert Names(parts[i], n, read);
      }
      if Listed(parts, n, read) {
        var i :| 0 <= i < |parts| && Names(parts[i], n, read);
        assert ns[i] == n;
      }
    }
    assert r.value == set n | n in ns;
  }

  /** Numbers written out and joined by commas are excluded exactly. */
  lemma ExcludeRoundTrip(ns: seq<int>)
    requires |ns| >= 1
    ensures LoadExcludeIds(Some(Join(Written(ns), ','))) == Ok(set n | n in ns)
  {
    var parts := Written(ns);
    WrittenParts(ns);
    SplitJoin(parts, ',');
    assert !Blank(parts[0]);
    JoinStartsWith(parts, ',');
    ExcludeNamed(parts, ns, ParseInt);
  }

  /** A join starts with its first part, so it is not empty when that
      part is not. */
  lemma JoinStartsWith(parts: seq<string>, sep: char)
    requires |parts| >= 1
    ensures |Join(parts, sep)| >= |parts[0]| && Join(parts, sep)[..|parts[0]|] == parts[0]
  {
  }

  /** Python's `unicodedata`: NFKD decomposition and the combining-mark
      test, outside the model. */
  datatype Unicode = Unicode(nfkd: string -> string, combining: char -> bool)

  /** The characters of `s` that are not combining marks, in order. */
  function Uncombined(s: string, combining: char -> bool): (r: string)
    ensures |r| <= |s|
    ensures forall k :: 0 <= k < |r| ==> !combining(r[k]) && r[k] in s
  {
    if s == [] then []
    else
      var init := Uncombined(s[..|s| - 1], combining);
      assert forall c :: c in s[..|s| - 1] ==> c in s;
      if combining(s[|s| - 1]) then init else init + [s[|s| - 1]]
  }

  /** A text without combining marks keeps all its characters. */
  lemma {:induction false} UncombinedUnchanged(s: string, combining: char -> bool)
    requires forall k :: 0 <= k < |s| ==> !combining(s[k])
    ensures Uncombined(s, combining) == s
  {
    if s != [] {
      UncombinedUnchanged(s[..|s| - 1], combining);
    }
  }

  /** `normalize_text`: "" for anything but a string, else the NFKD form
      without its combining marks. */
  function NormalizeText(text: Json, u: Unicode): (r: string)
    ensures !text.Str? ==> r == ""
    ensures forall k :: 0 <= k < |r| ==> !u.combining(r[k])
  {
    if text.Str? then Uncombined(u.nfkd(text.s), u.combining) else ""
  }

  /** A text NFKD leaves alone and that has no combining marks is its own
      normal form. */
  lemma NormalizePlain(s: string, u: Unicode)
    requires u.nfkd(s) == s && forall k :: 0 <= k < |s| ==> !u.combining(s[k])
    ensures NormalizeText(Str(s), u) == s
  {
    UncombinedUnchanged(s, u.combining);
  }

  datatype Field = Continent | Country | City | Street

  /** The location fields of the ground truth or of the prediction, as
      loaded (`None` where a key is missing). */
  datatype Place = Place(continent: Json, country: Json, city: Json, street: Json) {
    function Get(f: Field): Json {
      match f
      case Continent => continent
      case Country => country
      case City => city
      case Street => street
    }
  }

  /** One result: ground truth and prediction. */
  datatype Row = Row(standpointId: Json, truth: Place, predicted: Place)

  /** `<field>_match`: the normalised texts are equal. */
  predicate FieldMatch(row: Row, f: Field, u: Unicode) {
    NormalizeText(row.truth.Get(f), u) == NormalizeText(row.predicted.Get(f), u)
  }

  /** All four fields match. */
  predicate AllMatch(row: Row, u: Unicode) {
    FieldMatch(row, Continent, u) && FieldMatch(row, Country, u) &&
    FieldMatch(row, City, u) && FieldMatch(row, Street, u)
  }

  /** A field missing on both sides counts as a match, since both
      normalise to "". */
  lemma MissingMatchesMissing(row: Row, f: Field, u: Unicode)
    requires !row.truth.Get(f).Str? && !row.predicted.Get(f).Str?
    ensures FieldMatch(row, f, u)
  {
  }

  /** `standpoint_id.isin(exclude_ids)`: only an integer id can be listed. */
  predicate Excluded(row: Row, exclude: set<int>) {
    row.standpointId.Int? && row.standpointId.i in exclude
  }

  /** `results_df[~results_df['standpoint_id'].isin(exclude_ids)]`: the
      rows whose id is not excluded, in their order. */
  function DropExcluded(rows: seq<Row>, exclude: set<int>): (r: seq<Row>)
    ensures |r| <= |rows|
    ensures forall row :: row in r <==> row in rows && !Excluded(row, exclude)
  {
    if rows == [] then []
    else
      var init := rows[..|rows| - 1];
      var last := rows[|rows| - 1];
      assert rows == init + [last];
      if Excluded(last, exclude) then DropExcluded(init, exclude)
      else DropExcluded(init, exclude) + [last]
  }

  /** Excluding nothing keeps every row. */
  lemma {:induction false} DropNothing(rows: seq<Row>)
    ensures DropExcluded(rows, {}) == rows
  {
    if rows != [] {
      DropNothing(rows[..|rows| - 1]);
      assert rows == rows[..|rows| - 1] + [rows[|rows| - 1]];
    }
  }

  /** A column of booleans `analyze_results` averages: one field's match,
      or all four at once. */
  datatype Test = One(field: Field) | AllFour

  predicate Accepts(row: Row, t: Test, u: Unicode) {
    match t
    case One(f) => FieldMatch(row, f, u)
    case AllFour => AllMatch(row, u)
  }

  /** The number of rows a test accepts. */
  function Count(rows: seq<Row>, t: Test, u: Unicode): (n: nat)
    ensures n <= |rows|
  {
    if rows == [] then 0
    else Count(rows[..|rows| - 1], t, u) + (if Accepts(rows[|rows| - 1], t, u) then 1 else 0)
  }

  /** Rows where all four fields match are rows where each one does. */
  lemma {:induction false} CountAllWithin(rows: seq<Row>, f: Field, u: Unicode)
    ensures Count(rows, AllFour, u) <= Count(rows, One(f), u)
  {
    if rows != [] {
      CountAllWithin(rows[..|rows| - 1], f, u);
    }
  }

  /** The rates `analyze_results` reports, as fractions of `total`. */
  datatype Rates = Rates(continent: real, country: real, city: real, street: real, all: real, total: nat)

  function Rate(count: nat, total: nat): (r: real)
    requires count <= total && total > 0
    ensures 0.0 <= r <= 1.0
  {
    count as real / total as real
  }

  lemma RateMonotone(a: nat, b: nat, total: nat)
    requires a <= b <= total && total > 0
    ensures Rate(a, total) <= Rate(b, total)
  {
    var t, x, y := total as real, Rate(a, total), Rate(b, total);
    assert x * t == a as real && y * t == b as real;
    assert (y - x) * t == (b - a) as real;
    NonNegativeFactor(y - x, t);
  }

  /** A product with a positive factor is non-negative only when the
      other factor is. */
  lemma NonNegativeFactor(d: real, t: real)
    requires t > 0.0 && d * t >= 0.0
    ensures d >= 0.0
  {
  }

  /** The rates of five counts over `total` rows, where the all-four count
      is within each field's count. */
  function RatesOf(continent: nat, country: nat, city: nat, street: nat, all: nat, total: nat): (r: Rates)
    requires all <= continent <= total && all <= country <= total
    requires all <= city <= total && all <= street <= total && total > 0
    ensures r.total == total && r.all == Rate(all, total) && r.continent == Rate(continent, total)
    ensures r.country == Rate(country, total) && r.city == Rate(city, total) && r.street == Rate(street, total)
    ensures r.all <= r.continent && r.all <= r.country && r.all <= r.city && r.all <= r.street
  {
    RateMonotone(all, continent, total);
    RateMonotone(all, country, total);
    RateMonotone(all, city, total);
    RateMonotone(all, street, total);
    Rates(Rate(continent, total), Rate(country, total), Rate(city, total), Rate(street, total),
          Rate(all, total), total)
  }

  /** `analyze_results`: no rates without data; otherwise each field's
      match rate and the rate of rows where all four match, which is
      never above any single field's. */
  function AnalyzeResults(rows: seq<Row>, u: Unicode): (r: Option<Rates>)
    ensures r.None? <==> rows == []
    ensures r.Some? ==> r.value.total == |rows| && r.value.all == Rate(Count(rows, AllFour, u), |rows|)
    ensures r.Some? ==> r.value.continent == Rate(Count(rows, One(Continent), u), |rows|)
    ensures r.Some? ==> r.value.country == Rate(Count(rows, One(Country), u), |rows|)
    ensures r.Some? ==> r.value.city == Rate(Count(rows, One(City), u), |rows|)
    ensures r.Some? ==> r.value.street == Rate(Count(rows, One(Street), u), |rows|)
    ensures r.Some? ==> 0.0 <= r.value.all && r.value.all <= r.value.continent && r.value.all <= r.value.country &&
                        r.value.all <= r.value.city && r.value.all <= r.value.street
    ensures r.Some? ==> r.value.continent <= 1.0 && r.value.country <= 1.0 && r.value.city <= 1.0 && r.value.street <= 1.0
  {
    if rows == [] then None
    else
      var continent := Count(rows, One(Continent), u);
      var country := Count(rows, One(Country), u);
      var city := Count(rows, One(City), u);
      var street := Count(rows, One(Street), u);
      CountAllWithin(rows, Continent, u);
      CountAllWithin(rows, Country, u);
      CountAllWithin(rows, City, u);
      CountAllWithin(rows, Street, u);
      Some(RatesOf(continent, country, city, street, Count(rows, AllFour, u), |rows|))
  }
}
