# The Sound of a Snowflake — a Dafny model of `music.py`

`music.py` draws a Koch-style fractal curve and turns it into music. This
project models and verifies the two computational parts of the script:

- **The curve** (module `Koch`, `koch.dfy`). `koch_curve` and its inner
  `_koch_curve_complex` start from a seed of four points on a square. Each
  higher order rewrites every cyclic edge `(prev[i], prev[(i + 1) % n])` of
  the previous order into four points `a, c, d, e`. These go into a
  preallocated array of `4n` slots at indices `4i .. 4i+3`.
  - Points are complex numbers with `real` parts.
  - The expansion step is an imperative method over an `array`. It is proved
    equal to a pure specification (`Expand`, `Curve`), and the properties are
    proved about that specification.
  - The irrational rotation factor `e^{i*pi/3}` is a parameter `w`.
    - Layout, length and scaling hold for every `w`.
    - The geometric lemmas assume `IsSixtyDegrees(w)`: real part 1/2, and a
      positive imaginary part whose square is 3/4.
- **The score** (module `Music`, `music.dfy`). `generate_music` works in three
  steps:
  - It normalises the radii of the points onto [0, 1].
  - For each point it appends a lead note to the piano part and a harmony note
    a major third higher to the electric-guitar part.
  - At every index divisible by 8 it also appends a chord to the guitar part.
  - The loop is an imperative method that appends to two sequences. It is
    proved equal to a pure `Compose`, and counts, bounds and positions are
    proved about `Compose`.

Where the code and its usual description disagree, the model follows the code:

- **The apex is not an equilateral bump.**
  - The code computes `d = a + (b-a)/2 + (b-a)/6 * e^{i*pi/3}`.
  - That is a point at distance |b-a|/6 from the edge's midpoint. It sees `c`
    and `e` at a right angle: a 30-60-90 notch (`ApexGeometry`).
  - It lies to the left of each directed edge (`ApexLeftOfEdge`). For the
    counter-clockwise seed, that is towards the inside of the square
    (`SeedApexPointsInward`).
- **Equal radii are an error, not a fallback.**
  - When all radii are equal, `np.ptp` is 0 and the normalisation divides 0
    by 0. The code then raises at `int(nan)`; it does not fall back to all
    zeros.
  - An empty input raises at `np.min`.
  - Both are modelled as `Failure` results: `ZeroSpread` and `EmptyInput`.
- **The lead velocity reaches 100.** `60 + int(norm * 40)` equals 100 exactly
  at the farthest point; the range is not 60..99.
- **The chord is always C4-E4-G4.** `chords[i % len(chords)]` is only reached
  when `i % 8 == 0`, so it is always the first palette entry. This is
  modelled as written (`ChordIsAlwaysTonic`).
- **No argument validation.** Nothing checks that `scale`, `duration` or the
  radii are positive. The model accepts any real.

## Model

| member | source | states |
|---|---|---|
| Koch.Seed | music.py:190-192 | `scale * exp(i * theta)` for theta = 0, 90, 180, 270 degrees: four points, the first (scale, 0), each the previous one turned a quarter turn (multiplied by i); `SeedSquare` and `SeedScales` give its shape and scaling |
| Koch.Bump | music.py:199-206 | the four points a, c, d, e written for the edge (a, b), with b not emitted; carries no contract of its own: `EdgePoints` proves it equal to the source's formulas, and `BumpThirds`, `ApexGeometry`, `ApexLeftOfEdge` and `BumpScales` state its geometry |
| Koch.BumpBySixth | music.py:200-202 | the same four points in coordinates, from a sixth (x, y) of the edge; no contract of its own: `SixthsOfEdge`, `EdgePoints` and `BySixthScales` relate it to the source's formulas and to scaling |
| Koch.Subdivide | music.py:198-206 | the bumps of all edges concatenated in edge order; no contract of its own: `SubdivideLength` and `SubdivideAt` state its length and each slot |
| Koch.Successors | music.py:199 | the cyclic successor of every point: as many points as prev, and entry i is prev[(i + 1) % n] |
| Koch.Expand | music.py:194-208 | one order of the curve from the previous one; no contract of its own: `ExpandLength`, `ExpandAt`, `ExpandKeepsPoints`, `ExpandWrapsAround` and `ExpandScales` state it, and `ExpandStep` is proved to compute it |
| Koch.Curve | music.py:189-194 | the seed at order 0, otherwise one expansion of the previous order; no contract of its own: `CurveLength`, `PointsPersist` and `CurveScales` state it, and `CurveComplex` is proved to compute it |
| Koch.SubdivideLength | music.py:196-206 | filling one bump per edge produces exactly four points per edge |
| Koch.SubdivideAt | music.py:198-206 | slot 4i+j of the result is point j of the bump of edge i |
| Koch.ExpandLength | music.py:195-196 | one expansion step produces 4n points from n |
| Koch.NextIndex | music.py:199 | the cyclic successor `(i + 1) % n` is i+1, or 0 for the last index |
| Koch.ExpandAt | music.py:198-206 | slot 4i+j of the next order is point j of the bump of the edge (prev[i], prev[(i+1) % n]); every slot 0..4n-1 is such a slot |
| Koch.ExpandKeepsPoints | music.py:199-203 | every point of the previous order is kept, in order, at index 4i |
| Koch.ExpandWrapsAround | music.py:199 | the last four slots come from the closing edge from the last point back to prev[0] |
| Koch.EdgePoints | music.py:200-202 | c, d and e computed as the source writes them are the bump's points 1, 2 and 3 |
| Koch.BumpThirds | music.py:200-202 | c and e split the edge into three equal parts: c - a = e - c = b - e, and 3(c - a) = b - a |
| Koch.ApexGeometry | music.py:201 | with w = e^{i*pi/3}, the angle c-d-e is a right angle, and \|d-e\|^2, \|d-c\|^2 and \|d-midpoint\|^2 are \|b-a\|^2/36, /12 and /36 |
| Koch.ApexLeftOfEdge | music.py:201 | six times the cross product of (b - a) and (d - a) equals w.im * \|b - a\|^2, so d is on the left of the edge when w.im > 0 |
| Koch.SeedSquare | music.py:190-192 | the seed has four points at distance scale from the origin; each cyclic edge has squared length 2*scale^2 and turns counter-clockwise |
| Koch.SeedApexPointsInward | music.py:190-201 | for scale > 0 and w.im > 0, the apex of the first seed edge lies strictly on the origin's side of that edge |
| Koch.CurveLength | music.py:189-196 | the curve of order k has exactly 4^(k+1) points |
| Koch.PointsPersist | music.py:193-203 | point i of order k is point i*4^m of order k+m: no point is moved or dropped |
| Koch.PersistStep | music.py:193-203 | one order later, the point at index k is at index 4k |
| Koch.BumpScales | music.py:200-202 | scaling both endpoints of an edge by k scales every point of its bump by k |
| Koch.ExpandScales | music.py:196-206 | expanding a curve scaled by k gives the expansion scaled by k |
| Koch.SeedScales | music.py:190-192 | the seed for k*scale is the seed for scale multiplied by k |
| Koch.CurveScales | music.py:189-206 | the curve for k*scale is, point by point, the curve for scale multiplied by k, at every order |
| Koch.ExpandStep | music.py:194-207 | the in-place fill of the 4n-slot array returns exactly Expand(prev): length 4n, and prev[i] at 4i |
| Koch.CurveComplex | music.py:189-207 | `_koch_curve_complex` returns Curve(order), which has 4^(order+1) points |
| Koch.KochCurve | music.py:188-212 | x and y have 4^(order+1) entries and are the real and imaginary parts of the curve's points, in order |
| Music.Trunc | music.py:40 | Python's `int` truncates toward zero: for r >= 0 the result lies in (r-1, r], for r < 0 in [r, r+1) |
| Music.Min | music.py:26 | `np.min` is an element of the radii and at most each of them |
| Music.Max | music.py:26 | `np.max` is an element of the radii and at least each of them |
| Music.SpreadIsZeroIffConstant | music.py:26 | the peak-to-peak spread is zero exactly when all radii are equal |
| Music.Scale01 | music.py:26 | the value r of (d - min)/(max - min): r * (max - min) == d - min; it lies in [0, 1], and is 0 exactly at the minimum and 1 exactly at the maximum |
| Music.Normalize | music.py:26 | fails exactly when the input is empty (EmptyInput) or all radii are equal (ZeroSpread); otherwise min < max, and value i is `Scale01(d_i, min, max)`, so value_i * (max - min) == d_i - min, in [0, 1] |
| Music.ScaleEach | music.py:26 | the element-wise min-max map: one value per radius, and value i is `Scale01` of radius i |
| Music.NormalizeKeepsOrder | music.py:26 | the normalised radii keep the order of the radii, in both directions, and reach both 0 and 1 |
| Music.LeadPitch | music.py:40 | `60 + int(norm * 24)`: for a non-negative radius, p - 60 is the whole part of norm * 24, so p >= 60 |
| Music.LeadVelocity | music.py:43 | `60 + int(norm * 40)`: for a non-negative radius, v - 60 is the whole part of norm * 40, so v >= 60 |
| Music.LeadDuration | music.py:42 | `base * (0.5 + turn * 1.5)`; no contract of its own: `LeadDurationBounds` bounds it |
| Music.LeadNote | music.py:40-43 | the piano note of one point; no contract of its own: `LeadNoteBounds` bounds it and `LeadTrackAt` places it |
| Music.PunctuationChord | music.py:54-56 | the palette chord at `i % 4` lasting 2 * base; no contract of its own: `ChordIsAlwaysTonic` shows which chord is ever reached |
| Music.HarmonyEvents | music.py:45-57 | what one point appends to the guitar part: its harmony note, then a chord when i % 8 == 0; no contract of its own: `HarmonyEventsChords` and `HarmonyAt` state it |
| Music.BaseDuration | music.py:37 | base * n == 4 * duration, and base is positive for a positive duration |
| Music.HarmonyNote | music.py:45-48 | the harmony note is 4 semitones above the lead, has the same length, and is 20 softer |
| Music.LeadNoteBounds | music.py:40-43 | for a normalised radius in [0, 1], pitch is in [60, 84] and velocity in [60, 100]; the tops are reached exactly at radius 1 |
| Music.LeadDurationBounds | music.py:42 | for base > 0 and a normalised angle in [0, 1), a lead note lasts from 0.5*base up to but not including 2*base |
| Music.HarmonyBounds | music.py:45-48 | for a normalised radius in [0, 1], harmony pitch is in [64, 88] and harmony velocity in [40, 80] |
| Music.ChordIsAlwaysTonic | music.py:53-56 | the chord reached at an index divisible by 8 is always C4-E4-G4, lasting 2*base |
| Music.LeadTrack | music.py:39-51 | after k points the piano part has exactly k events |
| Music.LeadTrackAt | music.py:39-51 | the i-th piano event is the lead note of point i |
| Music.HarmonyTrack | music.py:39-57 | the guitar part after k points; no contract of its own: `HarmonyTrackLength`, `HarmonyTrackPrefix`, `HarmonyAt` and `HarmonyTrackChords` state it |
| Music.HarmonyTrackLength | music.py:39-56 | after k points the guitar part has k + ceil(k/8) events |
| Music.HarmonyTrackPrefix | music.py:50-56 | later points only append to the guitar part |
| Music.HarmonyAt | music.py:45-56 | point i's harmony note is at index i + ceil(i/8) of the guitar part; when i % 8 == 0 the C4-E4-G4 chord of 2*base follows it directly |
| Music.HarmonyEventsChords | music.py:53-56 | one point adds a chord exactly when its index is divisible by 8 |
| Music.HarmonyTrackChords | music.py:39-56 | after k points the guitar part holds exactly ceil(k/8) chords |
| Music.Compose | music.py:13-62 | fails exactly on empty or all-equal radii, with the matching error; otherwise a stream at tempo 90 with a piano part and an electric-guitar part |
| Music.ComposeShape | music.py:36-57 | a composed stream has n piano notes with pitch in [60, 84] and velocity in [60, 100], and n + ceil(n/8) guitar events, of which ceil(n/8) are chords |
| Music.PlayPoints | music.py:39-57 | the append loop builds exactly LeadTrack and HarmonyTrack over all points |
| Music.GenerateMusic | music.py:13-62 | the procedure returns exactly Compose of its inputs, including the error cases |

## Left out

- Plotting and animation are not modelled: `create_animation`, the matplotlib figure and the frame-to-index mapping.
- The audio and video pipeline is not modelled. This covers `midi_to_wav_fluidsynth`, `create_snowflake_animation_and_music` and the ffmpeg and ffprobe calls. These are subprocesses and file I/O.
- `OUTPUT_DIR` and `os.makedirs` are not modelled. They are filesystem side effects.
- music21 objects become plain datatypes (`Event`, `Part`, `Stream`). Under value semantics the `deepcopy` of the chord is implicit.
- `np.sqrt` and `np.angle` are not modelled.
  - `Compose` takes the radii and the normalised angles (angle / 2*pi) as inputs.
  - The normalised angle's range [0, 1) is assumed only where a lemma needs it (`LeadDurationBounds`).
  - Both sequences come from the same points, so `Compose` requires them to have equal length.
- Floating point is not modelled: all arithmetic is exact over `real`.
  - `e^{i*pi/3}` is the parameter `w`.
  - The seed points are exact: the float seed has rounding noise of about 1e-15 where the model has 0.
  - Truncation and normalisation are exact, with no rounding near integer boundaries.
- The default arguments are not modelled: `scale=10` of `koch_curve` and `duration=10` of `generate_music` are ordinary parameters that every caller passes.
- A negative `order` is not modelled; `order` is a `nat`. In the source, a negative order never reaches the base case and ends in a recursion error.
- Koch.ApexLeftOfEdge: states the signed area as the identity `6 * cross == w.im * |b - a|^2` rather than as a strict inequality. Positivity then follows for `w.im > 0` and `a != b`.
- Koch.BumpScales: stated one slot `j` at a time rather than as a sequence equality. `ExpandScales` and `CurveScales` give the whole-sequence form.
