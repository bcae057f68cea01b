/** `NaviMap.get_observation_headings` of
    models/outdoor/navigation/task_env.py: the four ego-centric headings
    an agent observes at a node. The headings of the node's links,
    relative to the current heading, are sorted; while there are fewer
    than four, one of the defaults 0, 90, 180, 270 is put into the widest
    gap between neighbouring headings (going round the circle), the one
    farthest from both ends of the gap; finally the last heading is moved
    to the front when it is nearer to straight ahead than the first. */
module Headings {
  import opened Wrappers
  import opened Angles

  const Defaults: seq<real> := [0.0, 90.0, 180.0, 270.0]

  predicate Ascending(s: seq<real>) {
    forall i, j :: 0 <= i < j < |s| ==> s[i] <= s[j]
  }

  predicate StrictlyAscending(s: seq<real>) {
    forall i, j :: 0 <= i < j < |s| ==> s[i] < s[j]
  }

  /** No value occurs twice. */
  ghost predicate NoDup(s: seq<real>) {
    forall v :: multiset(s)[v] <= 1
  }

  predicate InCircle(s: seq<real>) {
    forall i :: 0 <= i < |s| ==> 0.0 <= s[i] < 360.0
  }

  /** Insertion of one value into a list, before the first larger or
      equal element. */
  function Insert(s: seq<real>, x: real): seq<real>
  {
    if s == [] then [x]
    else if x <= s[0] then [x] + s
    else [s[0]] + Insert(s[1..], x)
  }

  /** Inserting into an ascending list keeps it ascending and adds exactly
      the one value. */
  lemma {:induction false} InsertSorted(s: seq<real>, x: real)
    requires Ascending(s)
    ensures Ascending(Insert(s, x))
    ensures multiset(Insert(s, x)) == multiset(s) + multiset{x}
    ensures forall y :: y in Insert(s, x) ==> y == x || y in s
  {
    if s == [] {
    } else if x <= s[0] {
      assert Insert(s, x) == [x] + s;
    } else {
      var t := Insert(s[1..], x);
      InsertSorted(s[1..], x);
      assert Insert(s, x) == [s[0]] + t;
      ConsAscending(s, t);
      assert s == [s[0]] + s[1..];
    }
  }

  /** The head of an ascending list in front of an ascending list made of
      later elements and larger values stays ascending. */
  lemma ConsAscending(s: seq<real>, t: seq<real>)
    requires s != [] && Ascending(s) && Ascending(t)
    requires forall y :: y in t ==> s[0] <= y
    ensures Ascending([s[0]] + t)
  {
    var r := [s[0]] + t;
    forall i, j | 0 <= i < j < |r|
      ensures r[i] <= r[j]
    {
      assert r[j] == t[j - 1] && r[j] in t;
      if i > 0 {
        assert r[i] == t[i - 1];
      }
    }
  }

  /** `list.sort()`, as insertion sort. */
  function Sort(s: seq<real>): seq<real>
  {
    if s == [] then []
    else Insert(Sort(s[..|s| - 1]), s[|s| - 1])
  }

  /** `Sort` yields an ascending permutation of its input. */
  lemma {:induction false} SortSorted(s: seq<real>)
    ensures Ascending(Sort(s))
    ensures multiset(Sort(s)) == multiset(s)
  {
    if s != [] {
      SortSorted(s[..|s| - 1]);
      InsertSorted(Sort(s[..|s| - 1]), s[|s| - 1]);
      assert s == s[..|s| - 1] + [s[|s| - 1]];
    }
  }

  lemma TwoCopies(s: seq<real>, i: int, j: int)
    requires 0 <= i < j < |s| && s[i] == s[j]
    ensures !NoDup(s)
  {
    assert s == s[..j] + s[j..];
    assert s[i] in s[..j];
    assert s[j..][0] == s[j];
    assert multiset(s)[s[i]] >= 2;
  }

  /** Sorted without repeated values means strictly ascending. */
  lemma SortedNoDupStrict(s: seq<real>)
    requires Ascending(s) && NoDup(s)
    ensures StrictlyAscending(s)
  {
    forall i, j | 0 <= i < j < |s|
      ensures s[i] < s[j]
    {
      if s[i] == s[j] {
        TwoCopies(s, i, j);
        assert false;
      }
    }
  }

  /** The gap after heading i, going round: `(h[(i+1) % n] - h[i]) % 360`. */
  function Gap(h: seq<real>, i: int): (r: real)
    requires 0 <= i < |h|
    ensures 0.0 <= r < 360.0
  {
    RealMod(h[(i + 1) % |h|] - h[i], 360.0)
  }

  /** Whether a default heading lies inside the gap after heading `mh`. */
  predicate InGap(h: seq<real>, mh: int, d: real)
    requires 0 <= mh < |h|
  {
    if mh == |h| - 1 then h[mh] < d || d < h[0]
    else h[mh] < d < h[mh + 1]
  }

  /** The distance of a default heading from the nearer end of the gap. */
  function EndDistance(h: seq<real>, mh: int, d: real): real
    requires 0 <= mh < |h|
  {
    var a := HeadingDiff(d, h[mh]);
    var b := HeadingDiff(d, h[(mh + 1) % |h|]);
    if b < a then b else a
  }

  /** The index the widest-gap scan holds after the first `n` gaps. */
  function WidestUpTo(h: seq<real>, n: nat): (r: nat)
    requires 1 <= n <= |h|
    ensures r < n
  {
    if n == 1 then 0
    else
      var m := WidestUpTo(h, n - 1);
      if Gap(h, n - 1) > Gap(h, m) then n - 1 else m
  }

  /** The scan keeps the first index of the largest gap seen so far. */
  lemma {:induction false} WidestUpToMax(h: seq<real>, n: nat)
    requires 1 <= n <= |h|
    ensures forall i :: 0 <= i < n ==> Gap(h, i) <= Gap(h, WidestUpTo(h, n))
    ensures forall i :: 0 <= i < WidestUpTo(h, n) ==> Gap(h, i) < Gap(h, WidestUpTo(h, n))
  {
    if n > 1 {
      WidestUpToMax(h, n - 1);
    }
  }

  /** The first loop of an iteration: the index of the first widest gap
      (index 0 when every gap is 0). */
  method WidestGap(h: seq<real>) returns (mh: nat)
    requires |h| > 0
    ensures mh < |h| && mh == WidestUpTo(h, |h|)
    ensures forall i :: 0 <= i < |h| ==> Gap(h, i) <= Gap(h, mh)
    ensures forall i :: 0 <= i < mh ==> Gap(h, i) < Gap(h, mh)
  {
    var maxDiff := 0.0;
    mh := 0;
    var i := 0;
    while i < |h|
      invariant 0 <= i <= |h| && mh < |h|
      invariant i == 0 ==> mh == 0 && maxDiff == 0.0
      invariant i >= 1 ==> maxDiff == Gap(h, mh) && mh == WidestUpTo(h, i)
    {
      var diff := Gap(h, i);
      if diff > maxDiff {
        maxDiff := diff;
        mh := i;
      }
      i := i + 1;
    }
    WidestUpToMax(h, |h|);
  }

  /** Some default lies inside the gap at a positive distance from its ends. */
  predicate HasCandidate(h: seq<real>, mh: nat)
    requires mh < |h|
  {
    exists k :: 0 <= k < 4 && InGap(h, mh, Defaults[k]) && EndDistance(h, mh, Defaults[k]) > 0.0
  }

  /** The (choice, distance) the farthest-default scan holds after the
      first `n` defaults, starting from the previous choice. */
  function FarthestUpTo(c: seq<(bool, real)>, previous: Option<nat>, n: nat): (r: (Option<nat>, real))
    requires n <= |c|
    ensures r.0 == previous || (r.0.Some? && r.0.value < n)
  {
    if n == 0 then (previous, 0.0)
    else
      var (head, best) := FarthestUpTo(c, previous, n - 1);
      if c[n - 1].0 && c[n - 1].1 > best then (Some(n - 1), c[n - 1].1) else (head, best)
  }

  /** For each default: whether it lies inside the gap after `mh`, and its
      distance from the nearer end of the gap. */
  function Candidates(h: seq<real>, mh: nat): (c: seq<(bool, real)>)
    requires mh < |h|
    ensures |c| == 4 && forall k :: 0 <= k < 4 ==> c[k].1 >= 0.0
  {
    seq(4, k requires 0 <= k < 4 =>
      EndDistanceNonNegative(h, mh, Defaults[k]);
      (InGap(h, mh, Defaults[k]), EndDistance(h, mh, Defaults[k])))
  }

  /** The scan keeps the first default of largest positive distance from
      the ends of the gap, or the previous choice while there is none. */
  lemma {:induction false} FarthestUpToMax(c: seq<(bool, real)>, previous: Option<nat>, n: nat)
    requires n <= |c| && forall k :: 0 <= k < |c| ==> c[k].1 >= 0.0
    ensures var (head, best) := FarthestUpTo(c, previous, n);
      && best >= 0.0
      && (best == 0.0 ==> head == previous)
      && (best > 0.0 ==> head.Some? && head.value < n && c[head.value].0 && best == c[head.value].1)
      && (forall k :: 0 <= k < n && c[k].0 ==> c[k].1 <= best)
      && (best > 0.0 ==> forall k :: 0 <= k < head.value && c[k].0 ==> c[k].1 < best)
  {
    if n > 0 {
      FarthestUpToMax(c, previous, n - 1);
    }
  }

  lemma EndDistanceNonNegative(h: seq<real>, mh: nat, d: real)
    requires mh < |h|
    ensures EndDistance(h, mh, d) >= 0.0
  {
    HeadingDiffNonNegativeSymmetric(d, h[mh]);
    HeadingDiffNonNegativeSymmetric(d, h[(mh + 1) % |h|]);
  }

  /** The second loop of an iteration: among the defaults inside the gap,
      the first one farthest from the gap's ends, if any is at a positive
      distance; otherwise the choice of the previous iteration stays
      (Python's `max_min_diff_head` is not reset). */
  method FarthestDefault(h: seq<real>, mh: nat, previous: Option<nat>) returns (head: Option<nat>)
    requires mh < |h|
    ensures head == FarthestUpTo(Candidates(h, mh), previous, 4).0
    ensures FarthestChoice(h, mh, previous, head)
  {
    ghost var c := Candidates(h, mh);
    var maxMinDiff := 0.0;
    head := previous;
    var i := 0;
    while i < 4
      invariant 0 <= i <= 4
      invariant (head, maxMinDiff) == FarthestUpTo(c, previous, i)
    {
      assert c[i] == (InGap(h, mh, Defaults[i]), EndDistance(h, mh, Defaults[i]));
      if InGap(h, mh, Defaults[i]) {
        var minDiff := EndDistance(h, mh, Defaults[i]);
        if minDiff > maxMinDiff {
          maxMinDiff := minDiff;
          head := Some(i);
        }
      }
      i := i + 1;
    }
    FarthestMeaning(h, mh, previous);
  }

  /** The choice of the second loop: the previous one when no default lies
      inside the gap at a positive distance, otherwise the first default of
      largest distance from the gap's ends. */
  ghost predicate FarthestChoice(h: seq<real>, mh: nat, previous: Option<nat>, head: Option<nat>)
    requires mh < |h|
  {
    (!HasCandidate(h, mh) ==> head == previous) &&
    (HasCandidate(h, mh) ==>
       head.Some? && head.value < 4 &&
       InGap(h, mh, Defaults[head.value]) && EndDistance(h, mh, Defaults[head.value]) > 0.0 &&
       (forall k :: 0 <= k < 4 && InGap(h, mh, Defaults[k]) ==>
          EndDistance(h, mh, Defaults[k]) <= EndDistance(h, mh, Defaults[head.value])) &&
       (forall k :: 0 <= k < head.value && InGap(h, mh, Defaults[k]) ==>
          EndDistance(h, mh, Defaults[k]) < EndDistance(h, mh, Defaults[head.value])))
  }

  /** The scan over the candidates makes the farthest choice. */
  lemma FarthestMeaning(h: seq<real>, mh: nat, previous: Option<nat>)
    requires mh < |h|
    ensures FarthestChoice(h, mh, previous, FarthestUpTo(Candidates(h, mh), previous, 4).0)
  {
    var c := Candidates(h, mh);
    FarthestUpToMax(c, previous, 4);
    var (head, best) := FarthestUpTo(c, previous, 4);
    forall k | 0 <= k < 4
      ensures c[k] == (InGap(h, mh, Defaults[k]), EndDistance(h, mh, Defaults[k]))
    {
    }
    if HasCandidate(h, mh) {
      var k :| 0 <= k < 4 && InGap(h, mh, Defaults[k]) && EndDistance(h, mh, Defaults[k]) > 0.0;
      assert c[k].0 && c[k].1 > 0.0;
    }
  }

  /** The ego-centric heading of every link: `(heading - cur_heading) % 360`. */
  function Egos(links: seq<real>, cur: real): (r: seq<real>)
    ensures |r| == |links| && InCircle(r)
    ensures forall i :: 0 <= i < |links| ==> r[i] == RealMod(links[i] - cur, 360.0)
  {
    seq(|links|, i requires 0 <= i < |links| => RealMod(links[i] - cur, 360.0))
  }

  /** `get_observation_headings` on the link headings of a node, in the
      order of its links. `sorted` is the list before the final rotation. */
  method ObservationHeadings(links: seq<real>, cur: real) returns (r: Result<seq<real>>, ghost sorted: seq<real>)
    ensures r == ObservationOf(links, cur)
    ensures |links| == 0 ==> r == Err(IndexError)
    ensures |links| > 4 ==> r == Err(AssertionError)
    ensures 1 <= |links| <= 4 && NoDup(Egos(links, cur)) ==> r.Ok?
    ensures r.Ok? ==> |sorted| == 4 && StrictlyAscending(sorted) && InCircle(sorted)
    ensures r.Ok? ==> multiset(Egos(links, cur)) <= multiset(sorted)
    ensures r.Ok? ==> forall v :: v in multiset(sorted) - multiset(Egos(links, cur)) ==> v in Defaults
    ensures r.Ok? ==>
      r.value == (if HeadingDiff(sorted[0], 0.0) > HeadingDiff(sorted[3], 0.0)
                  then [sorted[3]] + sorted[..3] else sorted)
  {
    var egos := EgoHeadings(links, cur);
    var filled := Fill(egos);
    if filled.Err? {
      return Err(filled.error), [];
    }
    var headings := filled.value;
    if |headings| != 4 {
      return Err(AssertionError), [];
    }
    if !(headings[0] < headings[1] < headings[2] < headings[3]) {
      return Err(AssertionError), [];
    }
    sorted := headings;
    return Ok(Rotate(headings)), sorted;
  }

  /** The loop collecting the ego-centric headings of the links. */
  method EgoHeadings(links: seq<real>, cur: real) returns (egos: seq<real>)
    ensures egos == Egos(links, cur)
  {
    egos := [];
    var i := 0;
    while i < |links|
      invariant 0 <= i <= |links|
      invariant egos == Egos(links, cur)[..i]
    {
      egos := egos + [RealMod(links[i] - cur, 360.0)];
      i := i + 1;
    }
  }

  /** What the fill loop keeps: the sorted headings are the ego-centric
      ones plus the defaults added so far. */
  ghost predicate FillInv(egos: seq<real>, headings: seq<real>, added: multiset<real>, fine: bool)
  {
    && multiset(headings) == multiset(egos) + added
    && (forall v :: v in added ==> v in Defaults)
    && (|egos| == 0 ==> headings == [])
    && |headings| == (if |egos| <= 4 then |egos| + |added| else |egos|)
    && (|egos| <= 4 ==> |headings| <= 4)
    && Ascending(headings) && InCircle(headings)
    && (fine ==> NoDup(headings) && StrictlyAscending(headings) && |headings| >= 1)
  }

  /** Sorting, then filling up to four headings with defaults. */
  method Fill(egos: seq<real>) returns (r: Result<seq<real>>)
    requires InCircle(egos)
    ensures r == FillFrom(Sort(egos), None)
    ensures |egos| == 0 ==> r == Err(IndexError)
    ensures r.Ok? ==> Ascending(r.value) && InCircle(r.value) && multiset(egos) <= multiset(r.value)
    ensures r.Ok? ==> |r.value| == if |egos| <= 4 then 4 else |egos|
    ensures r.Ok? ==> forall v :: v in multiset(r.value) - multiset(egos) ==> v in Defaults
    ensures |egos| >= 4 ==> r.Ok?
    ensures 1 <= |egos| && NoDup(egos) ==> r.Ok? && StrictlyAscending(r.value)
  {
    var headings := Sort(egos);
    ghost var result := FillFrom(headings, None);
    SortSorted(egos);
    SameElementsInCircle(egos, headings);
    ghost var added: multiset<real> := multiset{};
    var head: Option<nat> := None;
    ghost var fine := NoDup(egos) && |egos| >= 1;
    if fine {
      SortedNoDupStrict(headings);
    }
    while |headings| < 4
      invariant FillInv(egos, headings, added, fine)
      invariant head.Some? ==> head.value < 4
      invariant FillFrom(headings, head) == result
      decreases 4 - |headings|
    {
      var next;
      ghost var mh;
      ghost var before := head;
      next, head, mh := FillStep(headings, head);
      FillFromStep(headings, before);
      if next.Err? {
        return Err(next.error);
      }
      added := added + multiset{Defaults[head.value]};
      headings := next.value;
    }
    return Ok(headings);
  }

  /** The final post-processing: the last heading is moved to the front
      when the first is farther from straight ahead. */
  function Rotate(h: seq<real>): seq<real>
    requires |h| == 4
  {
    var diff0 := HeadingDiff(h[0], 0.0);
    var diff3 := HeadingDiff(h[3], 0.0);
    if diff0 > diff3 then [h[3]] + h[..3] else h
  }

  lemma AppendInCircle(h: seq<real>, d: real)
    requires InCircle(h) && 0.0 <= d < 360.0
    ensures InCircle(h + [d])
  {
  }

  /** A permutation of headings on the circle stays on the circle. */
  lemma SameElementsInCircle(s: seq<real>, r: seq<real>)
    requires InCircle(s) && multiset(r) == multiset(s)
    ensures InCircle(r)
  {
    forall i | 0 <= i < |r|
      ensures 0.0 <= r[i] < 360.0
    {
      assert r[i] in multiset(r);
      assert r[i] in s;
    }
  }

  /** One iteration of the fill loop, as a function of the headings and
      the previous choice of default. */
  function FillStepOf(h: seq<real>, previous: Option<nat>): (r: (Result<seq<real>>, Option<nat>))
    requires previous.Some? ==> previous.value < 4
    ensures r.1.Some? ==> r.1.value < 4
    ensures r.0.Ok? ==> r.1.Some? && r.0.value == Sort(h + [Defaults[r.1.value]])
  {
    if |h| == 0 then (Err(IndexError), previous)
    else
      var head := FarthestUpTo(Candidates(h, WidestUpTo(h, |h|)), previous, 4).0;
      if head.None? then (Err(UnboundLocalError("max_min_diff_head")), head)
      else (Ok(Sort(h + [Defaults[head.value]])), head)
  }

  /** The fill loop from headings `h` and the previous choice `head`: the
      result once four headings are reached, or the first error. */
  function FillFrom(h: seq<real>, head: Option<nat>): Result<seq<real>>
    requires head.Some? ==> head.value < 4
    decreases 4 - |h|
  {
    if |h| >= 4 then Ok(h)
    else
      var (next, head') := FillStepOf(h, head);
      if next.Err? then Err(next.error)
      else
        SortSorted(h + [Defaults[head'.value]]);
        assert |multiset(next.value)| == |h| + 1;
        FillFrom(next.value, head')
  }

  /** Below four headings the fill loop is one step followed by the rest. */
  lemma FillFromStep(h: seq<real>, head: Option<nat>)
    requires |h| < 4 && (head.Some? ==> head.value < 4)
    ensures var (next, head') := FillStepOf(h, head);
      (next.Err? ==> FillFrom(h, head) == Err(next.error)) &&
      (next.Ok? ==> FillFrom(h, head) == FillFrom(next.value, head'))
  {
  }

  /** `get_observation_headings` as a function of the link headings and
      the current heading. */
  function ObservationOf(links: seq<real>, cur: real): (r: Result<seq<real>>)
    ensures r.Ok? ==> |r.value| == 4
  {
    var f := FillFrom(Sort(Egos(links, cur)), None);
    if f.Err? then Err(f.error)
    else if |f.value| != 4 || !(f.value[0] < f.value[1] < f.value[2] < f.value[3]) then Err(AssertionError)
    else Ok(Rotate(f.value))
  }

  /** One iteration of the fill loop: widest gap, farthest default, append
      and sort. For one to three distinct headings the new default lies in
      the widest gap and the headings stay distinct. */
  method FillStep(h: seq<real>, previous: Option<nat>) returns (r: Result<seq<real>>, head: Option<nat>, ghost mh: nat)
    requires Ascending(h) && InCircle(h)
    requires previous.Some? ==> previous.value < 4
    ensures (r, head) == FillStepOf(h, previous)
    ensures |h| == 0 ==> r == Err(IndexError)
    ensures r.Ok? ==> head.Some? && head.value < 4 && Added(h, r.value, Defaults[head.value])
    ensures StrictlyAscending(h) && NoDup(h) && 1 <= |h| <= 3 ==>
      r.Ok? && NoDup(r.value) && StrictlyAscending(r.value) &&
      mh < |h| && InGap(h, mh, Defaults[head.value]) &&
      forall i :: 0 <= i < |h| ==> Gap(h, i) <= Gap(h, mh)
  {
    if |h| == 0 {
      return Err(IndexError), previous, 0;
    }
    var widest := WidestGap(h);
    mh := widest;
    head := FarthestDefault(h, widest, previous);
    ghost var fine := StrictlyAscending(h) && NoDup(h) && |h| <= 3;
    if fine {
      DefaultInWidestGap(h, widest);
    }
    if head.None? {
      return Err(UnboundLocalError("max_min_diff_head")), head, mh;
    }
    var d := Defaults[head.value];
    var next := Sort(h + [d]);
    AddDefault(h, head.value);
    if fine {
      AddInGap(h, widest, d);
    }
    return Ok(next), head, mh;
  }

  /** `r` is `h` with `d` added, sorted and on the circle. */
  ghost predicate Added(h: seq<real>, r: seq<real>, d: real) {
    && |r| == |h| + 1
    && Ascending(r) && InCircle(r)
    && multiset(r) == multiset(h) + multiset{d}
  }

  /** Appending a default and sorting adds exactly that default. */
  lemma AddDefault(h: seq<real>, k: nat)
    requires Ascending(h) && InCircle(h) && k < 4
    ensures Added(h, Sort(h + [Defaults[k]]), Defaults[k])
  {
    var d := Defaults[k];
    assert multiset(h + [d]) == multiset(h) + multiset{d};
    SortSorted(h + [d]);
    assert 0.0 <= d < 360.0 by {
      assert d == 0.0 || d == 90.0 || d == 180.0 || d == 270.0;
    }
    AppendInCircle(h, d);
    SameElementsInCircle(h + [d], Sort(h + [d]));
    assert |Sort(h + [d])| == |multiset(Sort(h + [d]))|;
  }

  /** Adding a default from inside a gap to distinct headings keeps them
      distinct. */
  lemma AddInGap(h: seq<real>, mh: nat, d: real)
    requires StrictlyAscending(h) && NoDup(h) && mh < |h| && InGap(h, mh, d)
    ensures NoDup(Sort(h + [d])) && StrictlyAscending(Sort(h + [d]))
  {
    InGapFresh(h, mh, d);
    SortSorted(h + [d]);
    SortedNoDupStrict(Sort(h + [d]));
  }

  /** Two distinct headings on the circle are a positive distance apart. */
  lemma HeadingDiffPositive(a: real, b: real)
    requires 0.0 <= a < 360.0 && 0.0 <= b < 360.0 && a != b
    ensures HeadingDiff(a, b) > 0.0
  {
  }

  /** A default inside the gap is not one of the headings, and adding it
      keeps the headings free of repeats. */
  lemma InGapFresh(h: seq<real>, mh: nat, d: real)
    requires StrictlyAscending(h) && NoDup(h) && mh < |h| && InGap(h, mh, d)
    ensures d !in h && NoDup(h + [d])
  {
    forall k | 0 <= k < |h|
      ensures h[k] != d
    {
      if mh == |h| - 1 {
        assert h[0] <= h[k] <= h[mh];
      } else if k <= mh {
        assert h[k] <= h[mh];
      } else {
        assert h[mh + 1] <= h[k];
      }
    }
    assert multiset(h + [d]) == multiset(h) + multiset{d};
  }

  /** The gaps round the circle of two or three ascending headings add up
      to 360. */
  lemma GapsSum(h: seq<real>)
    requires StrictlyAscending(h) && InCircle(h) && 2 <= |h| <= 3
    ensures |h| == 2 ==> Gap(h, 0) + Gap(h, 1) == 360.0
    ensures |h| == 3 ==> Gap(h, 0) + Gap(h, 1) + Gap(h, 2) == 360.0
  {
    var n := |h|;
    ModUnique(h[1] - h[0], 360.0, 0, h[1] - h[0]);
    if n == 3 {
      ModUnique(h[2] - h[1], 360.0, 0, h[2] - h[1]);
    }
    ModUnique(h[0] - h[n - 1], 360.0, -1, h[0] - h[n - 1] + 360.0);
  }

  /** A default inside the gap and apart from both of its ends is a
      candidate. */
  lemma Candidate(h: seq<real>, mh: nat, k: nat)
    requires InCircle(h) && mh < |h| && k < 4 && InGap(h, mh, Defaults[k])
    requires Defaults[k] != h[mh] && Defaults[k] != h[(mh + 1) % |h|]
    ensures HasCandidate(h, mh)
  {
    var d := Defaults[k];
    HeadingDiffPositive(d, h[mh]);
    HeadingDiffPositive(d, h[(mh + 1) % |h|]);
  }

  /** A gap wider than 90 degrees between neighbours holds a default. */
  lemma InnerGapCandidate(h: seq<real>, mh: nat)
    requires InCircle(h) && mh < |h| - 1 && h[mh] < h[mh + 1] && Gap(h, mh) > 90.0
    ensures HasCandidate(h, mh)
  {
    var lo, hi := h[mh], h[mh + 1];
    ModUnique(hi - lo, 360.0, 0, hi - lo);
    assert hi - lo > 90.0;
    var k := if lo < 90.0 then 1 else if lo < 180.0 then 2 else 3;
    assert lo < Defaults[k] < hi;
    Candidate(h, mh, k);
  }

  /** A gap wider than 90 degrees from the last heading round to the first
      holds a default. */
  lemma WrapGapCandidate(h: seq<real>)
    requires InCircle(h) && |h| >= 2 && h[0] < h[|h| - 1] && Gap(h, |h| - 1) > 90.0
    ensures HasCandidate(h, |h| - 1)
  {
    var mh := |h| - 1;
    var lo, hi := h[mh], h[0];
    ModUnique(hi - lo, 360.0, -1, hi - lo + 360.0);
    assert hi - lo + 360.0 > 90.0;
    var k := if hi > 0.0 then 0 else 3;
    assert lo < Defaults[k] || Defaults[k] < hi;
    assert Defaults[k] != lo && Defaults[k] != hi;
    Candidate(h, mh, k);
  }

  /** With one to three distinct headings, some default lies inside the
      widest gap at a positive distance from both of its ends. */
  lemma DefaultInWidestGap(h: seq<real>, mh: nat)
    requires StrictlyAscending(h) && InCircle(h) && 1 <= |h| <= 3 && mh < |h|
    requires forall i :: 0 <= i < |h| ==> Gap(h, i) <= Gap(h, mh)
    ensures HasCandidate(h, mh)
  {
    var n := |h|;
    if n == 1 {
      var k := if h[0] != 0.0 then 0 else 1;
      assert Defaults[k] != h[0];
      Candidate(h, mh, k);
    } else {
      GapsSum(h);
      assert Gap(h, mh) > 90.0;
      if mh < n - 1 {
        InnerGapCandidate(h, mh);
      } else {
        WrapGapCandidate(h);
      }
    }
  }
}
