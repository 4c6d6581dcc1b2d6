/** The marker placement of `mark_locations`: fractions of a section's
    path mapped to arc lengths and then to points. */
module Markers {
  import opened Vectors
  import opened Numerics
  import opened Morphology

  /** `locs * rcum[-1]`: every fraction scaled by the total length. */
  function Scaled(locs: seq<real>, total: real): (ls: seq<real>)
    ensures |ls| == |locs|
  {
    if locs == [] then [] else Scaled(locs[..|locs| - 1], total) + [Times(locs[|locs| - 1], total)]
  }

  /** One entry of `locs * rcum[-1]`. */
  function Times(a: real, b: real): real {
    a * b
  }

  /** Entry k of the scaled fractions is fraction k times the total. */
  lemma {:induction false} ScaledAt(locs: seq<real>, total: real, k: nat)
    requires k < |locs|
    ensures Scaled(locs, total)[k] == Times(locs[k], total)
  {
    if k < |locs| - 1 {
      ScaledAt(locs[..|locs| - 1], total, k);
    }
  }

  /** With total the length of the path, the arc length targ = loc * total
      has a marker exactly when loc is not negative or the path has length 0,
      and otherwise the lookup raises IndexError; loc 0 marks the first point
      of the path and loc 1 the last. */
  lemma MarkAt(m: Math, xyz: seq<Point>, loc: real, total: real, targ: real)
    requires Sound(m) && 1 <= |xyz| && total == PathLength(m, xyz) && targ == Times(loc, total)
    ensures Lookup(m, xyz)(targ).Ok? <==> 0.0 <= loc || total == 0.0
    ensures Lookup(m, xyz)(targ).Err? ==> Lookup(m, xyz)(targ).error == IndexError
    ensures loc == 0.0 ==> Lookup(m, xyz)(targ) == Ok(xyz[0])
    ensures loc == 1.0 ==> Lookup(m, xyz)(targ) == Ok(Last(xyz))
  {
    LookupIs(m, xyz, targ);
    PathCumulativeNondecreasing(m, xyz, 0, SegmentCount(xyz));
    ProductSign(loc, total);
    CoordAtDefined(m, xyz, targ);
    if loc == 0.0 {
      ZeroTimes(loc, total);
      CoordAtStart(m, xyz);
    } else if loc == 1.0 {
      OneTimes(loc, total);
    }
  }

  /** MarkAt for entry k of the scaled fractions. */
  lemma MarkScaledAt(m: Math, xyz: seq<Point>, locs: seq<real>, total: real, k: nat)
    requires Sound(m) && 1 <= |xyz| && total == PathLength(m, xyz) && k < |locs|
    ensures Lookup(m, xyz)(Scaled(locs, total)[k]).Ok? <==> 0.0 <= locs[k] || total == 0.0
    ensures Lookup(m, xyz)(Scaled(locs, total)[k]).Err? ==> Lookup(m, xyz)(Scaled(locs, total)[k]).error == IndexError
    ensures locs[k] == 0.0 ==> Lookup(m, xyz)(Scaled(locs, total)[k]) == Ok(xyz[0])
    ensures locs[k] == 1.0 ==> Lookup(m, xyz)(Scaled(locs, total)[k]) == Ok(Last(xyz))
  {
    ScaledAt(locs, total, k);
    MarkAt(m, xyz, locs[k], total, Scaled(locs, total)[k]);
  }

  lemma ZeroTimes(a: real, b: real)
    requires a == 0.0
    ensures Times(a, b) == 0.0
  {
  }

  lemma OneTimes(a: real, b: real)
    requires a == 1.0
    ensures Times(a, b) == b
  {
  }

  /** For total >= 0, loc * total >= 0 exactly when loc >= 0 or total == 0. */
  lemma ProductSign(loc: real, total: real)
    requires 0.0 <= total
    ensures 0.0 <= Times(loc, total) <==> 0.0 <= loc || total == 0.0
  {
    if loc < 0.0 && 0.0 < total {
      assert loc * total < 0.0;
    }
  }

  /** The loop `for loc in lengths: f(loc)` of `mark_locations`: one
      point per arc length, in order; the first arc length f has no point
      for ends the loop with f's error. */
  function Collect(f: real -> Result<Point>, lengths: seq<real>): (r: Result<seq<Point>>)
    ensures r.Ok? ==> |r.value| == |lengths|
  {
    if lengths == [] then Ok([])
    else
      match Collect(f, lengths[..|lengths| - 1])
      case Err(e) => Err(e)
      case Ok(init) =>
        match f(lengths[|lengths| - 1])
        case Err(e) => Err(e)
        case Ok(p) => Ok(init + [p])
  }

  /** The points exist exactly when every arc length has one, point k is the
      one for arc length k, and an error is one that f raises. */
  lemma {:induction false} CollectPointwise(f: real -> Result<Point>, lengths: seq<real>, e: Error)
    requires forall k :: 0 <= k < |lengths| && f(lengths[k]).Err? ==> f(lengths[k]).error == e
    ensures Collect(f, lengths).Ok? <==> forall k :: 0 <= k < |lengths| ==> f(lengths[k]).Ok?
    ensures Collect(f, lengths).Ok? ==>
              forall k :: 0 <= k < |lengths| ==> f(lengths[k]) == Ok(Collect(f, lengths).value[k])
    ensures Collect(f, lengths).Err? ==> Collect(f, lengths).error == e
  {
    if lengths != [] {
      var init := lengths[..|lengths| - 1];
      assert forall k :: 0 <= k < |init| ==> init[k] == lengths[k];
      CollectPointwise(f, init, e);
    }
  }

  /** Once a prefix of the arc lengths fails, all of them fail. */
  lemma {:induction false} CollectErrExtends(f: real -> Result<Point>, lengths: seq<real>, j: nat)
    requires j <= |lengths| && Collect(f, lengths[..j]).Err?
    ensures Collect(f, lengths) == Collect(f, lengths[..j])
    decreases |lengths| - j
  {
    if j < |lengths| {
      assert lengths[..j + 1][..j] == lengths[..j];
      CollectErrExtends(f, lengths, j + 1);
    } else {
      assert lengths[..j] == lengths;
    }
  }

  /** `find_coord` on the arrays of the path, as a function of the arc length. */
  function Lookup(m: Math, xyz: seq<Point>): real -> Result<Point>
    requires 1 <= |xyz|
  {
    targ => CoordAt(m, xyz, targ)
  }

  /** With total the length of the path, the markers for the fractions locs
      exist exactly when every fraction is non-negative or the path has
      length 0; fraction 0 marks the first point and fraction 1 the last. */
  lemma MarkAllAt(m: Math, xyz: seq<Point>, locs: seq<real>, total: real)
    requires Sound(m) && 1 <= |xyz| && total == PathLength(m, xyz)
    ensures Collect(Lookup(m, xyz), Scaled(locs, total)).Ok? <==>
              forall k :: 0 <= k < |locs| ==> 0.0 <= locs[k] || total == 0.0
    ensures Collect(Lookup(m, xyz), Scaled(locs, total)).Err? ==>
              Collect(Lookup(m, xyz), Scaled(locs, total)).error == IndexError
    ensures Collect(Lookup(m, xyz), Scaled(locs, total)).Ok? ==>
              forall k :: 0 <= k < |locs| && locs[k] == 0.0 ==> Collect(Lookup(m, xyz), Scaled(locs, total)).value[k] == xyz[0]
    ensures Collect(Lookup(m, xyz), Scaled(locs, total)).Ok? ==>
              forall k :: 0 <= k < |locs| && locs[k] == 1.0 ==> Collect(Lookup(m, xyz), Scaled(locs, total)).value[k] == Last(xyz)
  {
    var f := Lookup(m, xyz);
    var lengths := Scaled(locs, total);
    forall k | 0 <= k < |locs|
      ensures f(lengths[k]).Ok? <==> 0.0 <= locs[k] || total == 0.0
      ensures f(lengths[k]).Err? ==> f(lengths[k]).error == IndexError
      ensures locs[k] == 0.0 ==> f(lengths[k]) == Ok(xyz[0])
      ensures locs[k] == 1.0 ==> f(lengths[k]) == Ok(Last(xyz))
    {
      MarkScaledAt(m, xyz, locs, total, k);
    }
    CollectPointwise(f, lengths, IndexError);
  }

  lemma LookupIs(m: Math, xyz: seq<Point>, targ: real)
    requires 1 <= |xyz|
    ensures Lookup(m, xyz)(targ) == CoordAt(m, xyz, targ)
  {
  }

  /** `mark_locations` without its plotting: the fractions locs of the path
      are scaled to arc lengths `locs * rcum[-1]`, and `find_coord` gives the
      marker at each. */
  method MarkLocations(m: Math, xyz: seq<Point>, locs: seq<real>) returns (res: Result<seq<Point>>)
    requires 1 <= |xyz|
    ensures res == Collect(Lookup(m, xyz), Scaled(locs, PathLength(m, xyz)))
  {
    var g := SequentialSpherical(m, xyz);
    var rcum := CumulativeLengths(g.r);
    var lengths := Scaled(locs, rcum[|rcum| - 1]);
    assert lengths == Scaled(locs, PathLength(m, xyz));
    res := FindMarks(m, xyz, g, rcum, lengths);
  }

  /** The loop `for targ_length in lengths` of `mark_locations`: appends the
      point `find_coord` gives for each arc length, and stops at the first
      error. */
  method FindMarks(m: Math, xyz: seq<Point>, g: Spherical, rcum: seq<real>, lengths: seq<real>)
    returns (res: Result<seq<Point>>)
    requires 1 <= |xyz| && g == SequentialSpherical(m, xyz) && rcum == CumulativeLengths(g.r)
    ensures res == Collect(Lookup(m, xyz), lengths)
  {
    var marks: seq<Point> := [];
    for k := 0 to |lengths|
      invariant Collect(Lookup(m, xyz), lengths[..k]) == Ok(marks)
    {
      var found := FindCoord(m, lengths[k], xyz, rcum, g.theta, g.phi);
      CoordAtIs(m, xyz, lengths[k]);
      assert lengths[..k + 1][..k] == lengths[..k];
      if found.Err? {
        CollectErrExtends(Lookup(m, xyz), lengths, k + 1);
        return Err(found.error);
      }
      marks := marks + [found.value];
    }
    assert lengths[..|lengths|] == lengths;
    return Ok(marks);
  }
}
