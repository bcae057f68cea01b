/** The geographic helpers of the sub-task generator
    (models/outdoor/navigation/target_gen/utils.py): the `SceneBounds`
    box, whose `ne` and `sw` corners are set in place, and the clipping
    of the Mercator projection and its inverse. The transcendental parts
    (log, tan, atan, exp) are function parameters. */
module SceneGeometry {

  /** `math.pi`, the float nearest to pi. */
  const Pi: real := 3.141592653589793

  /** The greatest latitude the Mercator projection is used for. */
  const MercatorLat: real := 85.0511

  /** `-90 <= s < n <= 90 and -180 <= w <= 180 and -180 <= e <= 180`. */
  predicate ValidBox(s: real, w: real, n: real, e: real) {
    -90.0 <= s < n <= 90.0 && -180.0 <= w <= 180.0 && -180.0 <= e <= 180.0
  }

  /** `w < e and -85.0511 <= s < n <= 85.0511`: the box does not cross the
      antimeridian and is not clipped by the projection. */
  predicate TrivialBox(s: real, w: real, n: real, e: real) {
    w < e && -MercatorLat <= s < n <= MercatorLat
  }

  /** A box whose longitudes lie on the map and that is trivial is valid. */
  lemma TrivialOnMapIsValid(s: real, w: real, n: real, e: real)
    requires TrivialBox(s, w, n, e) && -180.0 <= w && e <= 180.0
    ensures ValidBox(s, w, n, e)
  {
  }

  /** Being trivial does not bound the longitudes: a trivial box can be
      invalid. */
  lemma TrivialNotValid()
    ensures TrivialBox(0.0, -200.0, 1.0, 0.0) && !ValidBox(0.0, -200.0, 1.0, 0.0)
  {
  }

  /** The rectangle south, west, north, east of a scene, in degrees. */
  class SceneBounds {
    var s: real
    var w: real
    var n: real
    var e: real

    constructor(s: real, w: real, n: real, e: real)
      ensures this.s == s && this.w == w && this.n == n && this.e == e
    {
      this.s := s;
      this.w := w;
      this.n := n;
      this.e := e;
    }

    /** The midpoint of the box: as far from the north edge as from the
        south one, and from the west edge as from the east one. */
    function Center(): (c: (real, real))
      reads this
      ensures n - c.0 == c.0 - s && e - c.1 == c.1 - w
      ensures s <= n ==> s <= c.0 <= n
      ensures w <= e ==> w <= c.1 <= e
    {
      ((n + s) / 2.0, (w + e) / 2.0)
    }

    function Ne(): (real, real)
      reads this
    {
      (n, e)
    }

    function Sw(): (real, real)
      reads this
    {
      (s, w)
    }

    /** `bounds.ne = value`: the north-east corner is the one given, the
        south-west corner is kept. */
    method SetNe(value: (real, real))
      modifies this
      ensures Ne() == value && Sw() == old(Sw())
    {
      n, e := value.0, value.1;
    }

    /** `bounds.sw = value`: the south-west corner is the one given, the
        north-east corner is kept. */
    method SetSw(value: (real, real))
      modifies this
      ensures Sw() == value && Ne() == old(Ne())
    {
      s, w := value.0, value.1;
    }

    predicate IsValid()
      reads this
    {
      ValidBox(s, w, n, e)
    }

    predicate IsTrivial()
      reads this
    {
      TrivialBox(s, w, n, e)
    }
  }

  /** `min(max(v, lo), hi)`. */
  function Clip(v: real, lo: real, hi: real): (r: real)
    requires lo <= hi
    ensures lo <= r <= hi
    ensures lo <= v <= hi ==> r == v
    ensures v < lo ==> r == lo
    ensures hi < v ==> r == hi
  {
    var m := if v > lo then v else lo;
    if m < hi then m else hi
  }

  /** `math.radians`. */
  function Radians(x: real): real {
    x * Pi / 180.0
  }

  /** `math.degrees`. */
  function Degrees(x: real): real {
    x * 180.0 / Pi
  }

  /** `mercator_project(lat, lon, clip)`, given `y` of the unclipped
      projection as `logTan(lat)`: with clipping both coordinates lie in
      [-pi, pi], and a coordinate already inside is left as it is. */
  function MercatorProject(lat: real, lon: real, clip: bool, logTan: real -> real): (p: (real, real))
    ensures clip ==> -Pi <= p.0 <= Pi && -Pi <= p.1 <= Pi
    ensures !clip || -Pi <= Radians(lon) <= Pi ==> p.0 == Radians(lon)
    ensures !clip || -Pi <= logTan(lat) <= Pi ==> p.1 == logTan(lat)
  {
    var x := Radians(lon);
    var y := logTan(lat);
    if clip then (Clip(x, -Pi, Pi), Clip(y, -Pi, Pi)) else (x, y)
  }

  /** `inverse_mercator_project(x, y, clip)`, given the unclipped latitude
      in radians as `gudermann(y)` (`2 * atan(exp(y)) - pi / 2`): with
      clipping the longitude lies in [-180, 180] and the latitude in
      [-90, 90]; the result is `(lat, lon)`. */
  function InverseMercatorProject(x: real, y: real, clip: bool, gudermann: real -> real): (p: (real, real))
    ensures clip ==> -90.0 <= p.0 <= 90.0 && -180.0 <= p.1 <= 180.0
    ensures !clip || -90.0 <= Degrees(gudermann(y)) <= 90.0 ==> p.0 == Degrees(gudermann(y))
    ensures !clip || -180.0 <= Degrees(x) <= 180.0 ==> p.1 == Degrees(x)
  {
    var lon := Degrees(x);
    var lat := Degrees(gudermann(y));
    if clip then (Clip(lat, -90.0, 90.0), Clip(lon, -180.0, 180.0)) else (lat, lon)
  }

  /** On the map, projecting a longitude and back gives it again. */
  lemma LongitudeRoundTrip(lon: real, logTan: real -> real, gudermann: real -> real)
    requires -180.0 <= lon <= 180.0
    ensures InverseMercatorProject(MercatorProject(0.0, lon, true, logTan).0, 0.0, true, gudermann).1 == lon
  {
    assert -Pi <= Radians(lon) <= Pi by {
      assert Radians(lon) == lon / 180.0 * Pi;
    }
    assert Degrees(Radians(lon)) == lon;
  }
}
