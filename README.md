# PyNeuronToolbox morphology: arc-length resampling of a section path

PyNeuronToolbox's `morphology.py` draws neuron sections from their
digitised 3D paths. The path geometry at its heart is modelled here:

- `sequential_spherical` describes the path segment by segment: the length
  `r`, azimuth `theta` and polar angle `phi` of each pair of consecutive
  points.
- `rcum = np.append(0, np.cumsum(r))` gives the length of the path up to
  each point.
- `find_coord` gives the point at a target arc length. It takes the last
  index `i` with `rcum[i] <= targ`. When that index is the last point, it
  returns that point. Otherwise it steps `targ - rcum[i]` along segment `i`.
- `interpolate_jagged` cuts the path into `nseg` sub-paths at
  `np.linspace(0, rcum[-1], nseg + 1)`. Each sub-path starts where the one
  before ended. It keeps the original points whose cumulative length lies
  strictly between its two breakpoints, and it ends at the point `find_coord`
  gives for the next breakpoint.
- `mark_locations` scales fractions `locs` of the path to arc lengths
  `locs * rcum[-1]` and looks each one up with `find_coord`.

The project has four modules:

- `vectors.dfy` (module `Vectors`): points as triples of reals and the
  row-wise vector arithmetic.
- `numerics.dfy` (module `Numerics`): the numpy routines (`norm`, `sqrt`,
  `sin`, `cos`, `arctan2`) as a parameter `m: Math`, and `spherical_to_cartesian`
  built from them. The predicate `Sound(m)` states the laws the proofs rely
  on:
  - the norm is non-negative, is zero exactly at the origin, and scales with
    a non-negative factor;
  - `sqrt(0) == 0` and `arctan2(0, 0) == 0`;
  - converting the two angles of a non-zero displacement `d` back with
    radius `s` gives `(s / |d|) * d`.
- `morphology.dfy` (module `Morphology`): the pure helpers as functions,
  and `interpolate_jagged` as methods. Its loop over `a` (`SegmentPaths`)
  carries `end_coord` from one pass to the next, and its inner loop
  (`AppendPoints`) appends the interior points. The methods are proved
  against the functions `SubPath`, `StartPoint` and `EndPoint`.
- `markers.dfy` (module `Markers`): the part of `mark_locations` before the
  plotting, as a method whose loop over the arc lengths (`FindMarks`) is
  proved against the function `Collect`.

Errors the Python code raises are modelled as `Err(IndexError)` or
`Err(ValueError)`.

Where the code's behaviour differs from what its documentation suggests,
the model follows the code:

- A path of a single point has total length 0. Every breakpoint is 0 and
  `find_coord` returns that point, so `interpolate_jagged` returns `nseg`
  sub-paths `[p, p]` instead of failing.
- `nseg == 0` returns the empty list.
- `nseg == -1` gives `np.linspace(..., 0)`, an empty array, and
  `np.delete(breakpoints, 0)` on it raises `IndexError`, since index 0 is out
  of bounds.
- `nseg < -1` makes `np.linspace` raise `ValueError`.
- An empty path with `nseg >= 1` raises `IndexError`, because `xyz[0, :]`
  fails.
- For `nseg >= 0`, `np.delete(breakpoints, 0)` returns a new array that is
  thrown away. The model therefore uses the breakpoints unchanged.

## Model

| member | source | states |
|---|---|---|
| Morphology.SequentialSpherical | build/lib/PyNeuronToolbox/morphology.py:21-28 | three arrays, each one entry shorter than the path; entry k is the norm, azimuth and polar angle of the displacement from point k to point k + 1 |
| Morphology.SegmentLengths | build/lib/PyNeuronToolbox/morphology.py:21-26 | every segment length is non-negative and is zero exactly when the two points coincide; both angles of a zero-length segment are 0 |
| Morphology.CumulativeLengths | build/lib/PyNeuronToolbox/morphology.py:85 | rcum has one entry more than r, starts at 0, ends at the sum of r, and each step adds the next segment length |
| Morphology.CumulativeNondecreasing | build/lib/PyNeuronToolbox/morphology.py:85 | with non-negative lengths the cumulative lengths never decrease |
| Morphology.PathCumulative | build/lib/PyNeuronToolbox/morphology.py:82-85 | rcum of a path as both callers of find_coord compute it, one entry per point |
| Morphology.PathCumulativeNondecreasing | build/lib.linux-x86_64-2.7/PyNeuronToolbox/morphology.py:82-85 | the cumulative lengths of any path start at 0, are non-negative and never decrease |
| Morphology.LastAtMost | build/lib/PyNeuronToolbox/morphology.py:60 | the chosen index is the last one whose entry is at most targ; there is none exactly when every entry exceeds targ |
| Morphology.FindCoord | build/lib/PyNeuronToolbox/morphology.py:60-66 | raises IndexError exactly when every cumulative length exceeds targ; from the last cumulative length on, returns the last point |
| Morphology.CoordAtDefined | build/lib/PyNeuronToolbox/morphology.py:60-62 | on a path, find_coord succeeds exactly for targ >= 0, and returns the last point exactly, with no extrapolation, once targ reaches the total length |
| Morphology.ChosenSegment | build/lib.linux-x86_64-2.7/PyNeuronToolbox/morphology.py:60-64 | below the total length, the chosen index i is a segment with rcum[i] <= targ < rcum[i + 1], so 0 <= targ - rcum[i] < r[i] and the segment has positive length |
| Morphology.SegmentStep | build/lib/PyNeuronToolbox/morphology.py:64-66 | stepping targ - rcum[i] < r[i] along segment i gives xyz[i] + t * (xyz[i + 1] - xyz[i]) for some t in [0, 1), at distance targ - rcum[i] from xyz[i] |
| Morphology.CoordAtOnSegment | build/lib/PyNeuronToolbox/morphology.py:60-66 | below the total length, find_coord returns a point on the chosen segment, a fraction t in [0, 1) of the way from xyz[i] to xyz[i + 1] |
| Morphology.CoincidentPrefix | build/lib/PyNeuronToolbox/morphology.py:21-26 | a path whose cumulative length is still 0 at point i has all points up to i equal to the first |
| Morphology.CoordAtStart | build/lib/PyNeuronToolbox/morphology.py:60-66 | find_coord(0) returns the first point, also when the path begins with coincident points |
| Morphology.Linspace | build/lib/PyNeuronToolbox/morphology.py:88 | num values, the first start, the last stop, consecutive values (stop - start) / (num - 1) apart |
| Morphology.LinspaceRising | build/lib/PyNeuronToolbox/morphology.py:88 | from 0 to a non-negative stop the values never decrease |
| Morphology.LinspaceFromZero | build/lib/PyNeuronToolbox/morphology.py:88 | from 0 to a non-negative stop every value lies in [0, stop], in order |
| Morphology.Breakpoints | build/lib/PyNeuronToolbox/morphology.py:88-89 | there are nseg + 1 breakpoints, as linspace makes them: the result of np.delete is discarded |
| Morphology.BreakpointsSpread | build/lib.linux-x86_64-2.7/PyNeuronToolbox/morphology.py:88 | the breakpoints run from 0 to the total length, never decrease, and are total / nseg apart |
| Morphology.MidIndices | build/lib/PyNeuronToolbox/morphology.py:106-107 | an index is selected exactly when its cumulative length lies strictly between the two breakpoints; the indices are strictly increasing |
| Morphology.InteriorIndices | build/lib.linux-x86_64-2.7/PyNeuronToolbox/morphology.py:104-107 | the interior indices of a sub-path are indices of points of the path |
| Morphology.InteriorsDisjoint | build/lib/PyNeuronToolbox/morphology.py:104-109 | no original point lies in the interiors of two different sub-paths |
| Morphology.StartPoint | build/lib/PyNeuronToolbox/morphology.py:96-101 | the start of sub-path a: xyz[0] for the first, the previous end point after that (properties in SubPathEnds) |
| Morphology.EndPoint | build/lib/PyNeuronToolbox/morphology.py:111-113 | find_coord(breakpoints[a + 1]) succeeds and gives the end point; the last sub-path ends at xyz[-1] |
| Morphology.SubPath | build/lib/PyNeuronToolbox/morphology.py:94-116 | sub-path a: its start point, the points at its interior indices in index order, its end point (properties in SubPathEnds and InteriorsDisjoint) |
| Morphology.SubPathEnds | build/lib/PyNeuronToolbox/morphology.py:97-113 | a sub-path holds at least two points; the first starts at xyz[0], every later one starts at the end of the one before, and the last ends at xyz[-1] |
| Morphology.SubPathsChained | build/lib.linux-x86_64-2.7/PyNeuronToolbox/morphology.py:93-116 | a list of the nseg sub-paths is chained end to start, from xyz[0] to xyz[-1], each with at least two points |
| Morphology.AppendPoints | build/lib/PyNeuronToolbox/morphology.py:108-109 | the inner loop appends exactly the points at the selected indices, in index order |
| Morphology.BuildSubPath | build/lib/PyNeuronToolbox/morphology.py:94-116 | one pass of the outer loop builds sub-path a and returns its end point, from which the next pass starts |
| Morphology.SegmentPaths | build/lib/PyNeuronToolbox/morphology.py:92-119 | the outer loop raises IndexError on an empty path, and otherwise returns exactly nseg sub-paths, sub-path a being the one defined by SubPath |
| Morphology.InterpolateJagged | build/lib/PyNeuronToolbox/morphology.py:82-119 | ValueError for nseg < -1; IndexError for nseg == -1, from np.delete on the empty breakpoints; an empty list for nseg == 0; IndexError for an empty path; otherwise exactly nseg sub-paths, each the one defined by SubPath, chained end to start from xyz[0] to xyz[-1] |
| Numerics.StepAlong | build/lib/PyNeuronToolbox/morphology.py:40-43 | converting a radius o shorter than the norm of displacement d, with the angles of d, gives d scaled by o over that norm, a factor in [0, 1), and the result has norm o |
| Numerics.StepFrom | build/lib/PyNeuronToolbox/morphology.py:64-66 | the point reached by stepping o along d from p is p + t * d with t in [0, 1), at distance o from p |
| Numerics.NormZero | build/lib/PyNeuronToolbox/morphology.py:23 | restates the law Sound assumes of np.linalg.norm: the norm of a displacement is non-negative and zero exactly for the zero displacement |
| Numerics.SphericalToCartesian | build/lib/PyNeuronToolbox/morphology.py:30-43 | the conversion r sin(phi) cos(theta), r sin(phi) sin(theta), r cos(phi); a zero radius gives the origin whatever the angles (its stepping law is StepAlong) |
| Markers.Scaled | build/lib.linux-x86_64-2.7/PyNeuronToolbox/morphology.py:193 | locs * rcum[-1] has one entry per fraction (each entry given by ScaledAt) |
| Markers.ScaledAt | build/lib.linux-x86_64-2.7/PyNeuronToolbox/morphology.py:193 | entry k of `locs * rcum[-1]` is locs[k] times the total length |
| Markers.MarkAt | build/lib.linux-x86_64-2.7/PyNeuronToolbox/morphology.py:193-198 | arc length loc * total has a marker exactly when loc >= 0 or the path has length 0, and otherwise raises IndexError; loc 0 marks xyz[0] and loc 1 marks xyz[-1] |
| Markers.MarkScaledAt | build/lib.linux-x86_64-2.7/PyNeuronToolbox/morphology.py:193-198 | the same for entry k of the scaled fractions |
| Markers.Collect | build/lib/PyNeuronToolbox/morphology.py:225-227 | the marker loop as a function of the lookup and the arc lengths; on success one point per arc length (the rest in CollectPointwise) |
| Markers.CollectPointwise | build/lib/PyNeuronToolbox/morphology.py:225-227 | the marker loop succeeds exactly when every arc length has a point; marker k is the point for arc length k, and an error is one that the lookup raises |
| Markers.CollectErrExtends | build/lib/PyNeuronToolbox/morphology.py:226-227 | once a prefix of the arc lengths fails, the whole loop fails with the same error |
| Markers.MarkAllAt | build/lib.linux-x86_64-2.7/PyNeuronToolbox/morphology.py:193-198 | the markers exist exactly when every fraction is non-negative or the path has length 0, else IndexError; fraction 0 marks xyz[0] and fraction 1 marks xyz[-1] |
| Markers.FindMarks | build/lib/PyNeuronToolbox/morphology.py:225-228 | the loop returns what Collect defines: the find_coord point of every arc length, in order, or the error of the first arc length that has none |
| Markers.MarkLocations | build/lib/PyNeuronToolbox/morphology.py:213-228 | returns Collect over the lookup of the path and the fractions scaled by the total length: the markers of every fraction in order, or the first IndexError (characterised by MarkAllAt) |

## Left out

- Plotting and animation (`shapeplot`, `shapeplot_animate`, the plot call in
  `mark_locations`): matplotlib rendering and colour- and frame-index
  arithmetic.
- `get_section_path`, `get_all_sections`, `add_pre` and `dist_between`: these
  read NEURON's `h` and `SectionRef` objects. The path of a section is a
  parameter `xyz` of the model instead.
- The other files of the package (NEURON synapses, recording, SWC loading,
  NeuroMorpho scraping, channel analysis, packaging).
- Floating point: lengths, breakpoints and cumulative sums are exact reals.
  IEEE rounding in `np.linspace` and `np.cumsum` is not modelled.
- `np.linalg.norm`, `np.sqrt`, `np.sin`, `np.cos` and `np.arctan2` are not
  computed. They are a parameter, and only the laws in `Sound` are assumed.
  No trigonometric identity is proved from first principles.
- Morphology.InterpolateJagged: does not state that each sub-path is
  `rcum[-1] / nseg` long. Only the arc-length positions of the breakpoints
  (BreakpointsSpread), the interior points (MidIndices) and each found point
  (CoordAtOnSegment) are proved.
- Markers.MarkLocations: requires a path of at least one point. A section
  without 3D points makes `get_section_path` return an empty array, which the
  model does not represent.
- Markers.MarkLocations: a single float `locs` is taken as a list of one
  fraction, as `np.array([locs])` makes it. A scalar that is not a Python
  `float` (an `int` such as `0` or `1`, or a `numpy.float64`) passes both type
  tests unchanged, so `lengths` is a numpy scalar and iterating over it raises
  `TypeError`. The model's sequence of fractions cannot represent that input,
  so this error path is not modelled.
