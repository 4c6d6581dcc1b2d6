/** The path geometry of PyNeuronToolbox's morphology module: a section's
    digitised 3D path described segment by segment in spherical coordinates,
    its cumulative length, and the point at a given arc length along it. */
module Morphology {
  import opened Vectors
  import opened Numerics

  datatype Option<T> = None | Some(value: T)

  /** The Python exceptions the core can raise. */
  datatype Error = IndexError | ValueError

  datatype Result<T> = Ok(value: T) | Err(error: Error)

  /** The three arrays `(r, theta, phi)` of `sequential_spherical`. */
  datatype Spherical = Spherical(r: seq<real>, theta: seq<real>, phi: seq<real>)

  /** Number of rows of `np.diff(xyz, axis=0)`. */
  function SegmentCount(xyz: seq<Point>): nat {
    if |xyz| == 0 then 0 else |xyz| - 1
  }

  /** Displacement from point k to point k + 1. */
  function Segment(xyz: seq<Point>, k: nat): Point
    requires k + 1 < |xyz|
  {
    Sub(xyz[k + 1], xyz[k])
  }

  /** `sequential_spherical`: length, azimuth and polar angle of every
      segment, one entry per consecutive pair of points. */
  function SequentialSpherical(m: Math, xyz: seq<Point>): (g: Spherical)
    ensures |g.r| == |g.theta| == |g.phi| == SegmentCount(xyz)
    ensures forall k :: 0 <= k < |g.r| ==>
              && g.r[k] == m.norm(Segment(xyz, k))
              && g.theta[k] == Azimuth(m, Segment(xyz, k))
              && g.phi[k] == Polar(m, Segment(xyz, k))
  {
    var n := SegmentCount(xyz);
    Spherical(
      seq(n, k requires 0 <= k < n => m.norm(Segment(xyz, k))),
      seq(n, k requires 0 <= k < n => Azimuth(m, Segment(xyz, k))),
      seq(n, k requires 0 <= k < n => Polar(m, Segment(xyz, k))))
  }

  /** Every length is non-negative and is zero exactly for two coincident
      consecutive points, whose angles are then both 0. */
  lemma SegmentLengths(m: Math, xyz: seq<Point>, k: nat)
    requires Sound(m) && k < SegmentCount(xyz)
    ensures var g := SequentialSpherical(m, xyz);
      && 0.0 <= g.r[k]
      && (g.r[k] == 0.0 <==> xyz[k] == xyz[k + 1])
      && (xyz[k] == xyz[k + 1] ==> g.theta[k] == 0.0 && g.phi[k] == 0.0)
  {
    NormZero(m, Segment(xyz, k));
    SubZero(xyz[k + 1], xyz[k]);
    if xyz[k] == xyz[k + 1] {
      ZeroAngles(m);
    }
  }

  /** r[0] + ... + r[|r| - 1]. */
  function Sum(r: seq<real>): real {
    if r == [] then 0.0 else Sum(r[..|r| - 1]) + r[|r| - 1]
  }

  /** `np.append(0, np.cumsum(r))`: entry k is the length of the path up to
      point k. */
  function CumulativeLengths(r: seq<real>): (rcum: seq<real>)
    ensures |rcum| == |r| + 1 && rcum[0] == 0.0 && rcum[|r|] == Sum(r)
    ensures forall k :: 0 <= k < |r| ==> rcum[k + 1] == rcum[k] + r[k]
  {
    if r == [] then [0.0]
    else
      var init := CumulativeLengths(r[..|r| - 1]);
      init + [init[|r| - 1] + r[|r| - 1]]
  }

  /** With non-negative lengths the cumulative length never decreases. */
  lemma {:induction false} CumulativeNondecreasing(r: seq<real>, i: nat, j: nat)
    requires forall k :: 0 <= k < |r| ==> 0.0 <= r[k]
    requires i <= j <= |r|
    ensures CumulativeLengths(r)[i] <= CumulativeLengths(r)[j]
    decreases j - i
  {
    if i < j {
      CumulativeNondecreasing(r, i, j - 1);
    }
  }

  /** `np.nonzero(rcum <= targ)[0][-1]`: the last index whose entry is at
      most targ, or None when there is none (the source's IndexError). */
  function LastAtMost(rcum: seq<real>, targ: real): (i: Option<nat>)
    ensures i.Some? ==> i.value < |rcum| && rcum[i.value] <= targ
    ensures i.Some? ==> forall j :: i.value < j < |rcum| ==> targ < rcum[j]
    ensures i.None? <==> forall j :: 0 <= j < |rcum| ==> targ < rcum[j]
  {
    if rcum == [] then None
    else if rcum[|rcum| - 1] <= targ then Some(|rcum| - 1)
    else LastAtMost(rcum[..|rcum| - 1], targ)
  }

  /** `find_coord`: the point at arc length targ. It returns the last point
      when the chosen index is the last one, and otherwise steps
      targ - rcum[i] along segment i from point i. */
  function FindCoord(m: Math, targ: real, xyz: seq<Point>, rcum: seq<real>,
                     theta: seq<real>, phi: seq<real>): (p: Result<Point>)
    requires |rcum| == |xyz| == |theta| + 1 && |phi| == |theta|
    ensures p.Err? <==> forall j :: 0 <= j < |rcum| ==> targ < rcum[j]
    ensures p.Err? ==> p.error == IndexError
    ensures p.Ok? && rcum[|rcum| - 1] <= targ ==> p.value == xyz[|xyz| - 1]
  {
    match LastAtMost(rcum, targ)
    case None => Err(IndexError)
    case Some(i) =>
      if i == |theta| then Ok(xyz[|xyz| - 1])
      else Ok(Add(xyz[i], SphericalToCartesian(m, targ - rcum[i], theta[i], phi[i])))
  }

  /** Below the last index, `find_coord` steps from point i. */
  lemma FindCoordStep(m: Math, targ: real, xyz: seq<Point>, rcum: seq<real>,
                      theta: seq<real>, phi: seq<real>, i: nat)
    requires |rcum| == |xyz| == |theta| + 1 && |phi| == |theta|
    requires LastAtMost(rcum, targ) == Some(i) && i < |theta|
    ensures FindCoord(m, targ, xyz, rcum, theta, phi)
         == Ok(Add(xyz[i], SphericalToCartesian(m, targ - rcum[i], theta[i], phi[i])))
  {
  }

  /** The cumulative lengths of a path, as both callers of `find_coord`
      compute them. */
  function PathCumulative(m: Math, xyz: seq<Point>): (rcum: seq<real>)
    ensures |rcum| == SegmentCount(xyz) + 1
  {
    CumulativeLengths(SequentialSpherical(m, xyz).r)
  }

  /** Total length `rcum[-1]` of a path. */
  function PathLength(m: Math, xyz: seq<Point>): real {
    PathCumulative(m, xyz)[SegmentCount(xyz)]
  }

  /** `find_coord(targ, xyz, rcum, theta, phi)` with the arrays derived from
      xyz, as `interpolate_jagged` and `mark_locations` call it. */
  function CoordAt(m: Math, xyz: seq<Point>, targ: real): Result<Point>
    requires 1 <= |xyz|
  {
    var g := SequentialSpherical(m, xyz);
    FindCoord(m, targ, xyz, CumulativeLengths(g.r), g.theta, g.phi)
  }

  /** `CoordAt` is `find_coord` on the arrays of the path. */
  lemma CoordAtIs(m: Math, xyz: seq<Point>, targ: real)
    requires 1 <= |xyz|
    ensures CoordAt(m, xyz, targ) == FindCoord(m, targ, xyz, PathCumulative(m, xyz),
              SequentialSpherical(m, xyz).theta, SequentialSpherical(m, xyz).phi)
  {
  }

  /** The cumulative lengths of a path start at 0 and never decrease. */
  lemma PathCumulativeNondecreasing(m: Math, xyz: seq<Point>, i: nat, j: nat)
    requires Sound(m) && i <= j <= SegmentCount(xyz)
    ensures PathCumulative(m, xyz)[0] == 0.0
    ensures 0.0 <= PathCumulative(m, xyz)[i] <= PathCumulative(m, xyz)[j]
  {
    var r := SequentialSpherical(m, xyz).r;
    forall k | 0 <= k < |r| ensures 0.0 <= r[k] {
      SegmentLengths(m, xyz, k);
    }
    CumulativeNondecreasing(r, 0, i);
    CumulativeNondecreasing(r, i, j);
  }

  /** `find_coord` raises exactly for a negative target length, and returns
      the last point, with no extrapolation, from the total length on. */
  lemma CoordAtDefined(m: Math, xyz: seq<Point>, targ: real)
    requires Sound(m) && 1 <= |xyz|
    ensures CoordAt(m, xyz, targ).Ok? <==> 0.0 <= targ
    ensures PathLength(m, xyz) <= targ ==> CoordAt(m, xyz, targ) == Ok(xyz[|xyz| - 1])
  {
    var rcum := PathCumulative(m, xyz);
    if targ < 0.0 {
      forall j | 0 <= j < |rcum| ensures targ < rcum[j] {
        PathCumulativeNondecreasing(m, xyz, j, j);
      }
    } else {
      PathCumulativeNondecreasing(m, xyz, 0, 0);
    }
  }

  /** Below the total length, `find_coord` settles on a segment i of
      positive length with rcum[i] <= targ < rcum[i + 1]. */
  lemma ChosenSegment(m: Math, xyz: seq<Point>, targ: real) returns (i: nat)
    requires Sound(m) && 1 <= |xyz| && 0.0 <= targ < PathLength(m, xyz)
    ensures LastAtMost(PathCumulative(m, xyz), targ) == Some(i)
    ensures i + 1 < |xyz|
    ensures PathCumulative(m, xyz)[i] <= targ < PathCumulative(m, xyz)[i + 1]
    ensures 0.0 <= targ - PathCumulative(m, xyz)[i] < SequentialSpherical(m, xyz).r[i]
  {
    var g := SequentialSpherical(m, xyz);
    var rcum := PathCumulative(m, xyz);
    PathCumulativeNondecreasing(m, xyz, 0, 0);
    i := LastAtMost(rcum, targ).value;
    assert i < SegmentCount(xyz);
    assert rcum[i + 1] == rcum[i] + g.r[i];
  }

  /** Below the total length, `find_coord` returns the point of the chosen
      segment i at distance targ - rcum[i] from point i: a fraction t in
      [0, 1) of the way from point i to point i + 1. */
  lemma CoordAtOnSegment(m: Math, xyz: seq<Point>, targ: real) returns (i: nat, t: real)
    requires Sound(m) && 1 <= |xyz| && 0.0 <= targ < PathLength(m, xyz)
    ensures LastAtMost(PathCumulative(m, xyz), targ) == Some(i) && i + 1 < |xyz|
    ensures 0.0 <= t < 1.0
    ensures CoordAt(m, xyz, targ) == Ok(Add(xyz[i], Scale(t, Segment(xyz, i))))
    ensures m.norm(Sub(CoordAt(m, xyz, targ).value, xyz[i])) == targ - PathCumulative(m, xyz)[i]
  {
    i := ChosenSegment(m, xyz, targ);
    t := SegmentStep(m, xyz, targ, i);
  }

  /** The point `find_coord` computes on segment i, at distance
      targ - rcum[i] < r[i] from point i, is a fraction t in [0, 1) of the
      way from point i to point i + 1. */
  lemma SegmentStep(m: Math, xyz: seq<Point>, targ: real, i: nat) returns (t: real)
    requires Sound(m) && 1 <= |xyz| && i + 1 < |xyz| && LastAtMost(PathCumulative(m, xyz), targ) == Some(i)
    requires 0.0 <= targ - PathCumulative(m, xyz)[i] < m.norm(Segment(xyz, i))
    ensures 0.0 <= t < 1.0
    ensures CoordAt(m, xyz, targ) == Ok(Add(xyz[i], Scale(t, Segment(xyz, i))))
    ensures m.norm(Sub(CoordAt(m, xyz, targ).value, xyz[i])) == targ - PathCumulative(m, xyz)[i]
  {
    var g := SequentialSpherical(m, xyz);
    FindCoordStep(m, targ, xyz, PathCumulative(m, xyz), g.theta, g.phi, i);
    t := StepFrom(m, CoordAt(m, xyz, targ).value, xyz[i], Segment(xyz, i), targ - PathCumulative(m, xyz)[i]);
  }

  /** A path whose cumulative length is still 0 at point i has all of its
      points up to i on top of the first one. */
  lemma {:induction false} CoincidentPrefix(m: Math, xyz: seq<Point>, i: nat)
    requires Sound(m) && i <= SegmentCount(xyz) && 1 <= |xyz|
    requires PathCumulative(m, xyz)[i] == 0.0
    ensures forall k :: 0 <= k <= i ==> xyz[k] == xyz[0]
  {
    if 0 < i {
      var rcum := PathCumulative(m, xyz);
      PathCumulativeNondecreasing(m, xyz, i - 1, i);
      SegmentLengths(m, xyz, i - 1);
      assert rcum[i - 1] == 0.0;
      CoincidentPrefix(m, xyz, i - 1);
    }
  }

  /** `find_coord(0, ...)` is the first point, also when the path begins with
      coincident points. */
  lemma CoordAtStart(m: Math, xyz: seq<Point>)
    requires Sound(m) && 1 <= |xyz|
    ensures CoordAt(m, xyz, 0.0) == Ok(xyz[0])
  {
    var g := SequentialSpherical(m, xyz);
    var rcum := PathCumulative(m, xyz);
    var n := SegmentCount(xyz);
    PathCumulativeNondecreasing(m, xyz, 0, 0);
    var i := LastAtMost(rcum, 0.0).value;
    PathCumulativeNondecreasing(m, xyz, i, i);
    assert rcum[i] == 0.0;
    CoincidentPrefix(m, xyz, i);
    if i < n {
      FindCoordStep(m, 0.0, xyz, rcum, g.theta, g.phi, i);
    } else {
      assert CoordAt(m, xyz, 0.0) == Ok(xyz[n]);
    }
  }

  /** `np.linspace(start, stop, num)`: num evenly spaced values, the first
      start and the last stop. */
  function Linspace(start: real, stop: real, num: nat): (s: seq<real>)
    ensures |s| == num
    ensures 0 < num ==> s[0] == start
    ensures 1 < num ==> s[num - 1] == stop
    ensures 1 < num ==> forall k :: 0 <= k < num - 1 ==>
              s[k + 1] - s[k] == (stop - start) / ((num - 1) as real)
  {
    if num <= 1 then
      seq(num, _ => start)
    else
      var step := (stop - start) / ((num - 1) as real);
      assert ((num - 1) as real) * step == stop - start;
      seq(num, k requires 0 <= k < num => start + (k as real) * step)
  }

  /** From 0 to a non-negative stop, the values rise from 0 to stop. */
  lemma LinspaceFromZero(stop: real, num: nat, i: nat, j: nat)
    requires 0.0 <= stop && 2 <= num && i <= j < num
    ensures 0.0 <= Linspace(0.0, stop, num)[i] <= Linspace(0.0, stop, num)[j] <= stop
  {
    LinspaceRising(stop, num, 0, i);
    LinspaceRising(stop, num, i, j);
    LinspaceRising(stop, num, j, num - 1);
  }

  /** The values rise step by step when stop is not below start. */
  lemma {:induction false} LinspaceRising(stop: real, num: nat, i: nat, j: nat)
    requires 0.0 <= stop && 2 <= num && i <= j < num
    ensures Linspace(0.0, stop, num)[i] <= Linspace(0.0, stop, num)[j]
    decreases j - i
  {
    if i < j {
      var s := Linspace(0.0, stop, num);
      assert 0.0 <= stop / ((num - 1) as real);
      assert s[i + 1] - s[i] == stop / ((num - 1) as real);
      LinspaceRising(stop, num, i + 1, j);
    }
  }

  /** `np.nonzero((rcum > lo) & (rcum < hi))[0]`: the indices whose entry
      lies strictly between lo and hi, in increasing order. */
  function MidIndices(rcum: seq<real>, lo: real, hi: real): (ix: seq<nat>)
    ensures forall j :: j in ix <==> 0 <= j < |rcum| && lo < rcum[j] < hi
    ensures forall p, q :: 0 <= p < q < |ix| ==> ix[p] < ix[q]
    ensures forall p :: 0 <= p < |ix| ==> ix[p] < |rcum|
  {
    if rcum == [] then []
    else
      var init := MidIndices(rcum[..|rcum| - 1], lo, hi);
      if lo < rcum[|rcum| - 1] < hi then init + [|rcum| - 1] else init
  }

  /** The points at the given indices, in the order of the indices. */
  function Pick(xyz: seq<Point>, ix: seq<nat>): (ps: seq<Point>)
    requires forall p :: 0 <= p < |ix| ==> ix[p] < |xyz|
    ensures |ps| == |ix|
  {
    seq(|ix|, p requires 0 <= p < |ix| => xyz[ix[p]])
  }

  /** The `nseg + 1` breakpoints `np.linspace(0, rcum[-1], nseg + 1)`. */
  function Breakpoints(m: Math, xyz: seq<Point>, nseg: nat): (bp: seq<real>)
    ensures |bp| == nseg + 1
  {
    Linspace(0.0, PathLength(m, xyz), nseg + 1)
  }

  /** Breakpoints start at 0, end at the total length, are evenly spaced by
      total / nseg and never decrease. */
  lemma BreakpointsSpread(m: Math, xyz: seq<Point>, nseg: nat, i: nat, j: nat)
    requires Sound(m) && 1 <= nseg && i <= j <= nseg
    ensures Breakpoints(m, xyz, nseg)[0] == 0.0
    ensures Breakpoints(m, xyz, nseg)[nseg] == PathLength(m, xyz)
    ensures 0.0 <= Breakpoints(m, xyz, nseg)[i] <= Breakpoints(m, xyz, nseg)[j] <= PathLength(m, xyz)
    ensures i < nseg ==>
      Breakpoints(m, xyz, nseg)[i + 1] - Breakpoints(m, xyz, nseg)[i] == PathLength(m, xyz) / (nseg as real)
  {
    PathCumulativeNondecreasing(m, xyz, 0, SegmentCount(xyz));
    LinspaceFromZero(PathLength(m, xyz), nseg + 1, i, j);
  }

  /** The end point of sub-path a: `find_coord(breakpoints[a + 1], ...)`,
      which exists, and is the last point of the path for the last sub-path. */
  function EndPoint(m: Math, xyz: seq<Point>, nseg: nat, a: nat): (ep: Point)
    requires Sound(m) && 1 <= |xyz| && a < nseg
    ensures CoordAt(m, xyz, Breakpoints(m, xyz, nseg)[a + 1]) == Ok(ep)
    ensures a == nseg - 1 ==> ep == xyz[|xyz| - 1]
  {
    var bp := Breakpoints(m, xyz, nseg);
    BreakpointsSpread(m, xyz, nseg, a + 1, a + 1);
    CoordAtDefined(m, xyz, bp[a + 1]);
    CoordAt(m, xyz, bp[a + 1]).value
  }

  /** The start point of sub-path a: the first point of the path, then the end
      point of the sub-path before. */
  function StartPoint(m: Math, xyz: seq<Point>, nseg: nat, a: nat): Point
    requires Sound(m) && 1 <= |xyz| && a < nseg
  {
    if a == 0 then xyz[0] else EndPoint(m, xyz, nseg, a - 1)
  }

  /** The indices of the original points kept inside sub-path a. */
  function InteriorIndices(m: Math, xyz: seq<Point>, nseg: nat, a: nat): (ix: seq<nat>)
    requires a < nseg
    ensures forall p :: 0 <= p < |ix| ==> ix[p] <= SegmentCount(xyz)
  {
    var bp := Breakpoints(m, xyz, nseg);
    MidIndices(PathCumulative(m, xyz), bp[a], bp[a + 1])
  }

  /** Sub-path a as `interpolate_jagged` builds it: start point, the original
      points strictly between its two breakpoints, end point. */
  function SubPath(m: Math, xyz: seq<Point>, nseg: nat, a: nat): seq<Point>
    requires Sound(m) && 1 <= |xyz| && a < nseg
  {
    [StartPoint(m, xyz, nseg, a)] + Pick(xyz, InteriorIndices(m, xyz, nseg, a)) + [EndPoint(m, xyz, nseg, a)]
  }

  /** Every sub-path holds at least its start and end point; the first starts
      at the first point of the path, each later one where the one before
      ends, and the last ends at the last point of the path. */
  lemma SubPathEnds(m: Math, xyz: seq<Point>, nseg: nat, a: nat)
    requires Sound(m) && 1 <= |xyz| && a < nseg
    ensures 2 <= |SubPath(m, xyz, nseg, a)|
    ensures a == 0 ==> SubPath(m, xyz, nseg, a)[0] == xyz[0]
    ensures 0 < a ==> SubPath(m, xyz, nseg, a)[0] == Last(SubPath(m, xyz, nseg, a - 1))
    ensures a == nseg - 1 ==> Last(SubPath(m, xyz, nseg, a)) == xyz[|xyz| - 1]
  {
    if a == nseg - 1 {
      BreakpointsSpread(m, xyz, nseg, nseg, nseg);
      CoordAtDefined(m, xyz, PathLength(m, xyz));
    }
  }

  function Last<T>(s: seq<T>): T
    requires s != []
  {
    s[|s| - 1]
  }

  /** No original point lies inside two sub-paths. */
  lemma InteriorsDisjoint(m: Math, xyz: seq<Point>, nseg: nat, a: nat, b: nat)
    requires Sound(m) && a < b < nseg
    ensures forall j :: j in InteriorIndices(m, xyz, nseg, a) ==> j !in InteriorIndices(m, xyz, nseg, b)
  {
    BreakpointsSpread(m, xyz, nseg, a + 1, b);
  }

  /** Sub-paths that are those of `interpolate_jagged` each hold at least two
      points, the first starts at the first point of the path, each later
      one starts where the one before ends, and the last ends at the last
      point of the path. */
  lemma SubPathsChained(m: Math, xyz: seq<Point>, nseg: nat, paths: seq<seq<Point>>)
    requires Sound(m) && 1 <= |xyz| && |paths| == nseg
    requires forall a :: 0 <= a < nseg ==> paths[a] == SubPath(m, xyz, nseg, a)
    ensures forall a :: 0 <= a < |paths| ==> 2 <= |paths[a]|
    ensures paths != [] ==> paths[0][0] == xyz[0] && Last(Last(paths)) == Last(xyz)
    ensures forall a :: 0 < a < |paths| ==> paths[a][0] == Last(paths[a - 1])
  {
    forall a | 0 <= a < nseg
      ensures 2 <= |paths[a]|
      ensures a == 0 ==> paths[a][0] == xyz[0]
      ensures 0 < a ==> paths[a][0] == Last(paths[a - 1])
      ensures a == nseg - 1 ==> Last(paths[a]) == Last(xyz)
    {
      SubPathEnds(m, xyz, nseg, a);
    }
  }

  /** Appending sub-path a to the first a sub-paths gives the first a + 1. */
  lemma AppendSubPath(m: Math, xyz: seq<Point>, nseg: nat, paths: seq<seq<Point>>, path: seq<Point>)
    requires Sound(m) && 1 <= |xyz| && |paths| < nseg
    requires forall b :: 0 <= b < |paths| ==> paths[b] == SubPath(m, xyz, nseg, b)
    requires path == SubPath(m, xyz, nseg, |paths|)
    ensures forall b :: 0 <= b < |paths| + 1 ==> (paths + [path])[b] == SubPath(m, xyz, nseg, b)
  {
  }

  /** The inner loop of `interpolate_jagged`: appends the points at the
      given indices to the path begun so far. */
  method AppendPoints(xyz: seq<Point>, path: seq<Point>, ix: seq<nat>) returns (res: seq<Point>)
    requires forall p :: 0 <= p < |ix| ==> ix[p] < |xyz|
    ensures res == path + Pick(xyz, ix)
  {
    res := path;
    var k := 0;
    while k < |ix|
      invariant 0 <= k <= |ix|
      invariant res == path + Pick(xyz, ix[..k])
    {
      assert Pick(xyz, ix[..k + 1]) == Pick(xyz, ix[..k]) + [xyz[ix[k]]];
      res := res + [xyz[ix[k]]];
      k := k + 1;
    }
    assert ix[..k] == ix;
  }

  /** One pass of the outer loop of `interpolate_jagged`: sub-path a from
      its start point, and its end point, which the next pass starts from. */
  method BuildSubPath(m: Math, xyz: seq<Point>, g: Spherical, rcum: seq<real>, breakpoints: seq<real>,
                      nseg: nat, a: nat, startCoord: Point)
    returns (path: seq<Point>, endCoord: Point)
    requires Sound(m) && 1 <= |xyz| && a < nseg
    requires g == SequentialSpherical(m, xyz) && rcum == CumulativeLengths(g.r)
    requires breakpoints == Breakpoints(m, xyz, nseg)
    requires startCoord == StartPoint(m, xyz, nseg, a)
    ensures path == SubPath(m, xyz, nseg, a)
    ensures endCoord == EndPoint(m, xyz, nseg, a)
  {
    var startLength, endLength := breakpoints[a], breakpoints[a + 1];
    var midIndices := MidIndices(rcum, startLength, endLength);
    path := AppendPoints(xyz, [startCoord], midIndices);
    BreakpointsSpread(m, xyz, nseg, a + 1, a + 1);
    CoordAtDefined(m, xyz, endLength);
    endCoord := FindCoord(m, endLength, xyz, rcum, g.theta, g.phi).value;
    path := path + [endCoord];
  }

  /** `interpolate_jagged(xyz, nseg)`: cuts the path into nseg sub-paths at
      evenly spaced arc lengths. */
  method InterpolateJagged(m: Math, xyz: seq<Point>, nseg: int) returns (res: Result<seq<seq<Point>>>)
    requires Sound(m)
    ensures nseg < -1 ==> res == Err(ValueError)
    ensures nseg == -1 ==> res == Err(IndexError)
    ensures nseg == 0 ==> res == Ok([])
    ensures 0 < nseg && xyz == [] ==> res == Err(IndexError)
    ensures 0 < nseg && xyz != [] ==> res.Ok? && |res.value| == nseg
    ensures 0 < nseg && xyz != [] ==> forall a :: 0 <= a < nseg ==> res.value[a] == SubPath(m, xyz, nseg, a)
    ensures res.Ok? ==> forall a :: 0 <= a < |res.value| ==> 2 <= |res.value[a]|
    ensures res.Ok? && res.value != [] ==> res.value[0][0] == xyz[0] && Last(Last(res.value)) == Last(xyz)
    ensures res.Ok? ==> forall a :: 0 < a < |res.value| ==> res.value[a][0] == Last(res.value[a - 1])
  {
    if nseg + 1 < 0 {
      // np.linspace refuses a negative number of samples
      return Err(ValueError);
    }
    if nseg + 1 == 0 {
      // np.delete(breakpoints, 0) on the empty array of breakpoints
      return Err(IndexError);
    }
    if nseg == 0 {
      return Ok([]);
    }
    res := SegmentPaths(m, xyz, nseg);
    if res.Ok? {
      SubPathsChained(m, xyz, nseg, res.value);
    }
  }

  /** The loop `for a in range(nseg)` of `interpolate_jagged`: sub-path a
      starts where sub-path a - 1 ended, the first at `xyz[0, :]`, which
      raises IndexError on an empty path. */
  method SegmentPaths(m: Math, xyz: seq<Point>, nseg: nat) returns (res: Result<seq<seq<Point>>>)
    requires Sound(m) && 1 <= nseg
    ensures xyz == [] ==> res == Err(IndexError)
    ensures xyz != [] ==> res.Ok? && |res.value| == nseg
    ensures xyz != [] ==> forall a :: 0 <= a < nseg ==> res.value[a] == SubPath(m, xyz, nseg, a)
  {
    var g := SequentialSpherical(m, xyz);
    var rcum := CumulativeLengths(g.r);
    var breakpoints := Linspace(0.0, rcum[|rcum| - 1], nseg + 1);
    var segPaths: seq<seq<Point>> := [];
    var endCoord := Zero();
    var a := 0;
    while a < nseg
      invariant 0 <= a <= nseg
      invariant 0 < a ==> xyz != []
      invariant |segPaths| == a
      invariant forall b :: 0 <= b < a ==> segPaths[b] == SubPath(m, xyz, nseg, b)
      invariant 0 < a ==> endCoord == EndPoint(m, xyz, nseg, a - 1)
    {
      var startCoord;
      if a == 0 {
        if xyz == [] {
          return Err(IndexError);
        }
        startCoord := xyz[0];
      } else {
        startCoord := endCoord;
      }
      var path;
      path, endCoord := BuildSubPath(m, xyz, g, rcum, breakpoints, nseg, a, startCoord);
      AppendSubPath(m, xyz, nseg, segPaths, path);
      segPaths := segPaths + [path];
      a := a + 1;
    }
    return Ok(segPaths);
  }
}
