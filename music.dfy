/*
  The score side of `music.py`: `generate_music` turns the points of the
  curve into two parts of a stream. Every point becomes a lead note on the
  piano (pitch and velocity from its normalised radius, length from its
  normalised angle) and a harmony note a major third higher on the electric
  guitar; every eighth point also adds a chord to the guitar part.

  The square roots and angles of the points are not modelled: the loop takes
  the radii and the normalised angles (angle / 2*pi, in [0, 1)) as inputs.
  music21's objects become plain datatypes.
*/
module Music {

  // ---------------------------------------------------------------------
  // Data model

  /** The metronome mark appended at the head of the stream (quarter = 90). */
  const Tempo: nat := 90

  datatype Instrument = Piano | ElectricGuitar

  /** A note (MIDI pitch, length in quarter notes, MIDI velocity) or a chord. */
  datatype Event =
    | Note(pitch: int, duration: real, velocity: int)
    | Chord(pitches: seq<int>, duration: real)

  datatype Part = Part(instrument: Instrument, events: seq<Event>)

  /** The returned stream: the tempo mark, then the piano and the guitar part. */
  datatype Stream = Stream(tempo: nat, piano: Part, synth: Part)

  /** Where the source raises instead of returning a stream: `np.min` of an
      empty array, and `int(nan)` after dividing by a zero peak-to-peak. */
  datatype MusicError = EmptyInput | ZeroSpread

  datatype Result<T> = Success(value: T) | Failure(error: MusicError)

  /** The chord palette as MIDI numbers: C4-E4-G4, A3-C4-E4, F3-A3-C4 and G3-B3-D4. */
  const Palette: seq<seq<int>> := [[60, 64, 67], [57, 60, 64], [53, 57, 60], [55, 59, 62]]

  /** The C major triad, the first palette entry. */
  const Tonic: seq<int> := [60, 64, 67]

  // ---------------------------------------------------------------------
  // Normalisation of the radii

  /** Python's `int` on a float: truncation toward zero. */
  function Trunc(r: real): (t: int)
    ensures r >= 0.0 ==> 0 <= t && t as real <= r < t as real + 1.0
    ensures r < 0.0 ==> t <= 0 && t as real - 1.0 < r <= t as real
  {
    if r >= 0.0 then r.Floor else -((-r).Floor)
  }

  /** `np.min`. */
  function Min(s: seq<real>): (m: real)
    requires |s| > 0
    ensures m in s
    ensures forall i :: 0 <= i < |s| ==> m <= s[i]
  {
    if |s| == 1 then s[0]
    else
      var rest := Min(s[1..]);
      assert forall i :: 1 <= i < |s| ==> s[i] == s[1..][i - 1];
      if s[0] <= rest then s[0] else rest
  }

  /** `np.max`. */
  function Max(s: seq<real>): (m: real)
    requires |s| > 0
    ensures m in s
    ensures forall i :: 0 <= i < |s| ==> s[i] <= m
  {
    if |s| == 1 then s[0]
    else
      var rest := Max(s[1..]);
      assert forall i :: 1 <= i < |s| ==> s[i] == s[1..][i - 1];
      if s[0] >= rest then s[0] else rest
  }

  /** All radii equal: the peak-to-peak `np.ptp` is zero. */
  predicate Constant(s: seq<real>)
  {
    forall i, j :: 0 <= i < |s| && 0 <= j < |s| ==> s[i] == s[j]
  }

  lemma SpreadIsZeroIffConstant(s: seq<real>)
    requires |s| > 0
    ensures Min(s) == Max(s) <==> Constant(s)
  {
    if Min(s) == Max(s) {
      forall i, j | 0 <= i < |s| && 0 <= j < |s|
        ensures s[i] == s[j]
      {
      }
    }
  }

  /** (d - min) / (max - min) for one radius. */
  function Scale01(d: real, lo: real, hi: real): (r: real)
    requires lo <= d <= hi && lo < hi
    ensures 0.0 <= r <= 1.0
    ensures r == 0.0 <==> d == lo
    ensures r == 1.0 <==> d == hi
    ensures r * (hi - lo) == d - lo
  {
    Ratio01(d - lo, hi - lo);
    (d - lo) / (hi - lo)
  }

  lemma Ratio01(p: real, q: real)
    requires 0.0 <= p <= q && q > 0.0
    ensures 0.0 <= p / q <= 1.0
    ensures p / q == 0.0 <==> p == 0.0
    ensures p / q == 1.0 <==> p == q
    ensures p / q * q == p
  {
    assert p / q * q == p;
  }

  /** `norm_dist`: every radius mapped linearly onto [0, 1], so that
      norm * (max - min) == d - min. */
  function Normalize(ds: seq<real>): (r: Result<seq<real>>)
    ensures r.Failure? <==> |ds| == 0 || Constant(ds)
    ensures r.Failure? ==> r.error == (if |ds| == 0 then EmptyInput else ZeroSpread)
    ensures r.Success? ==> |r.value| == |ds|
    ensures r.Success? ==> forall i :: 0 <= i < |ds| ==> 0.0 <= r.value[i] <= 1.0
    ensures r.Success? ==> |ds| > 0 && Min(ds) < Max(ds)
    ensures r.Success? ==>
              forall i :: 0 <= i < |ds| ==> r.value[i] == Scale01(ds[i], Min(ds), Max(ds))
  {
    if |ds| == 0 then Failure(EmptyInput)
    else
      SpreadIsZeroIffConstant(ds);
      if Min(ds) == Max(ds) then Failure(ZeroSpread)
      else
        Success(ScaleEach(ds, Min(ds), Max(ds)))
  }

  /** `(distances - min) / ptp`, element by element. */
  function ScaleEach(ds: seq<real>, lo: real, hi: real): (r: seq<real>)
    requires lo < hi && forall i :: 0 <= i < |ds| ==> lo <= ds[i] <= hi
    ensures |r| == |ds| && forall i :: 0 <= i < |ds| ==> r[i] == Scale01(ds[i], lo, hi)
  {
    if ds == [] then [] else [Scale01(ds[0], lo, hi)] + ScaleEach(ds[1..], lo, hi)
  }

  /** The normalised radii keep the order of the radii, and reach both ends. */
  lemma NormalizeKeepsOrder(ds: seq<real>)
    requires Normalize(ds).Success?
    ensures var norm := Normalize(ds).value;
      (forall i, j :: 0 <= i < |ds| && 0 <= j < |ds| ==> (ds[i] <= ds[j] <==> norm[i] <= norm[j])) &&
      (exists i :: 0 <= i < |ds| && norm[i] == 0.0) &&
      (exists j :: 0 <= j < |ds| && norm[j] == 1.0)
  {
    var norm := Normalize(ds).value;
    var lo, hi := Min(ds), Max(ds);
    forall i, j | 0 <= i < |ds| && 0 <= j < |ds|
      ensures ds[i] <= ds[j] <==> norm[i] <= norm[j]
    {
      ScaleMonotonic(ds[i], ds[j], lo, hi);
    }
    var i :| 0 <= i < |ds| && ds[i] == lo;
    var j :| 0 <= j < |ds| && ds[j] == hi;
    assert norm[i] == 0.0 && norm[j] == 1.0;
  }

  lemma ScaleMonotonic(d: real, e: real, lo: real, hi: real)
    requires lo <= d <= hi && lo <= e <= hi && lo < hi
    ensures d <= e <==> Scale01(d, lo, hi) <= Scale01(e, lo, hi)
  {
    var q := hi - lo;
    assert Scale01(e, lo, hi) - Scale01(d, lo, hi) == (e - d) / q;
  }

  // ---------------------------------------------------------------------
  // One point of the curve

  /** `base_duration = duration / points * 4`. */
  function BaseDuration(duration: real, n: nat): (b: real)
    requires n > 0
    ensures duration > 0.0 ==> b > 0.0
    ensures b * (n as real) == 4.0 * duration
  {
    duration / (n as real) * 4.0
  }

  /** `60 + int(norm * 24)`: for a non-negative radius, 60 plus the whole
      number of semitones below norm * 24. */
  function LeadPitch(norm: real): (p: int)
    ensures norm >= 0.0 ==> 60 <= p && (p - 60) as real <= norm * 24.0 < (p - 60) as real + 1.0
  {
    60 + Trunc(norm * 24.0)
  }

  /** `60 + int(norm * 40)`, in the same way. */
  function LeadVelocity(norm: real): (v: int)
    ensures norm >= 0.0 ==> 60 <= v && (v - 60) as real <= norm * 40.0 < (v - 60) as real + 1.0
  {
    60 + Trunc(norm * 40.0)
  }

  function LeadDuration(base: real, turn: real): real { base * (0.5 + turn * 1.5) }

  /** The piano note for one point. */
  function LeadNote(norm: real, turn: real, base: real): Event
  {
    Note(LeadPitch(norm), LeadDuration(base, turn), LeadVelocity(norm))
  }

  /** The guitar note that doubles a lead note. */
  function HarmonyNote(lead: Event): (h: Event)
    requires lead.Note?
    ensures h.Note? && h.pitch - lead.pitch == 4 && h.duration == lead.duration
    ensures lead.velocity - h.velocity == 20
  {
    Note(lead.pitch + 4, lead.duration, lead.velocity - 20)
  }

  /** `chords[i % len(chords)]`, lasting two base durations. */
  function PunctuationChord(i: nat, base: real): Event
  {
    Chord(Palette[i % |Palette|], base * 2.0)
  }

  /** What one point appends to the guitar part. */
  function HarmonyEvents(norm: real, turn: real, base: real, i: nat): seq<Event>
  {
    [HarmonyNote(LeadNote(norm, turn, base))] + (if i % 8 == 0 then [PunctuationChord(i, base)] else [])
  }

  /** A normalised radius in [0, 1] gives a pitch in [60, 84] (C4 to C6) and a
      velocity in [60, 100]; the tops are reached only at radius 1. */
  lemma LeadNoteBounds(norm: real, turn: real, base: real)
    requires 0.0 <= norm <= 1.0
    ensures var n := LeadNote(norm, turn, base);
      60 <= n.pitch <= 84 && 60 <= n.velocity <= 100 &&
      (n.pitch == 84 <==> norm == 1.0) && (n.velocity == 100 <==> norm == 1.0)
  {
    var p, v := Trunc(norm * 24.0), Trunc(norm * 40.0);
    assert p as real <= norm * 24.0 < p as real + 1.0;
    assert v as real <= norm * 40.0 < v as real + 1.0;
  }

  /** For a positive base and a normalised angle in [0, 1), a lead note lasts
      at least half a base duration and less than two. */
  lemma LeadDurationBounds(base: real, turn: real)
    requires base > 0.0 && 0.0 <= turn < 1.0
    ensures 0.5 * base <= LeadDuration(base, turn) < 2.0 * base
  {
    assert LeadDuration(base, turn) == 0.5 * base + 1.5 * (base * turn);
    assert 0.0 <= base * turn < base;
  }

  /** The harmony note lies a major third above the lead, so its pitch is in
      [64, 88] and its velocity, twenty lower, in [40, 80]. */
  lemma HarmonyBounds(norm: real, turn: real, base: real)
    requires 0.0 <= norm <= 1.0
    ensures var h := HarmonyNote(LeadNote(norm, turn, base));
      64 <= h.pitch <= 88 && 40 <= h.velocity <= 80
  {
    LeadNoteBounds(norm, turn, base);
  }

  /** The chord is only reached at indices divisible by 8, where `i % 4` is
      0: it is always the first palette entry, C4-E4-G4. */
  lemma ChordIsAlwaysTonic(i: nat, base: real)
    requires i % 8 == 0
    ensures PunctuationChord(i, base) == Chord(Tonic, 2.0 * base)
  {
    assert i % |Palette| == 0;
  }

  // ---------------------------------------------------------------------
  // The two parts

  /** The piano part after the first k points. */
  function LeadTrack(norm: seq<real>, turns: seq<real>, base: real, k: nat): (t: seq<Event>)
    requires k <= |norm| == |turns|
    ensures |t| == k
  {
    if k == 0 then [] else LeadTrack(norm, turns, base, k - 1) + [LeadNote(norm[k - 1], turns[k - 1], base)]
  }

  /** The guitar part after the first k points. */
  function HarmonyTrack(norm: seq<real>, turns: seq<real>, base: real, k: nat): seq<Event>
    requires k <= |norm| == |turns|
  {
    if k == 0 then []
    else HarmonyTrack(norm, turns, base, k - 1) + HarmonyEvents(norm[k - 1], turns[k - 1], base, k - 1)
  }

  /** `ceil(k / 8)`: how many of the indices 0 .. k-1 are divisible by 8. */
  function ChordsBefore(k: nat): nat { (k + 7) / 8 }

  /** The i-th lead note is the note of the i-th point. */
  lemma {:induction false} LeadTrackAt(norm: seq<real>, turns: seq<real>, base: real, k: nat, i: nat)
    requires i < k <= |norm| == |turns|
    ensures LeadTrack(norm, turns, base, k)[i] == LeadNote(norm[i], turns[i], base)
  {
    if i < k - 1 {
      LeadTrackAt(norm, turns, base, k - 1, i);
    }
  }

  /** The guitar part holds one note per point and one chord per index divisible by 8. */
  lemma {:induction false} HarmonyTrackLength(norm: seq<real>, turns: seq<real>, base: real, k: nat)
    requires k <= |norm| == |turns|
    ensures |HarmonyTrack(norm, turns, base, k)| == k + ChordsBefore(k)
  {
    if k > 0 {
      HarmonyTrackLength(norm, turns, base, k - 1);
      ChordsBeforeStep(k - 1);
    }
  }

  lemma ChordsBeforeStep(i: nat)
    ensures ChordsBefore(i + 1) == ChordsBefore(i) + (if i % 8 == 0 then 1 else 0)
  {
  }

  /** Later points only append to the guitar part. */
  lemma {:induction false} HarmonyTrackPrefix(norm: seq<real>, turns: seq<real>, base: real, k: nat, m: nat)
    requires k <= m <= |norm| == |turns|
    ensures HarmonyTrack(norm, turns, base, k) <= HarmonyTrack(norm, turns, base, m)
  {
    if k < m {
      HarmonyTrackPrefix(norm, turns, base, k, m - 1);
    }
  }

  /** Point i's harmony note sits at index i + ceil(i / 8) of the guitar part,
      and when i is divisible by 8 the tonic chord of two base durations
      follows it directly. */
  lemma HarmonyAt(norm: seq<real>, turns: seq<real>, base: real, k: nat, i: nat)
    requires i < k <= |norm| == |turns|
    ensures var t, p := HarmonyTrack(norm, turns, base, k), i + ChordsBefore(i);
      p < |t| &&
      t[p] == HarmonyNote(LeadNote(norm[i], turns[i], base)) &&
      (i % 8 == 0 ==> p + 1 < |t| && t[p + 1] == Chord(Tonic, 2.0 * base))
  {
    var p := i + ChordsBefore(i);
    var before := HarmonyTrack(norm, turns, base, i);
    var upto := HarmonyTrack(norm, turns, base, i + 1);
    HarmonyTrackLength(norm, turns, base, i);
    HarmonyTrackLength(norm, turns, base, i + 1);
    HarmonyTrackPrefix(norm, turns, base, i + 1, k);
    assert upto == before + HarmonyEvents(norm[i], turns[i], base, i);
    assert upto[p] == HarmonyNote(LeadNote(norm[i], turns[i], base));
    if i % 8 == 0 {
      ChordIsAlwaysTonic(i, base);
      ChordsBeforeStep(i);
      assert upto[p + 1] == Chord(Tonic, 2.0 * base);
    }
  }

  /** The number of chords in a part. */
  function CountChords(events: seq<Event>): (c: nat)
    ensures c <= |events|
  {
    if events == [] then 0
    else CountChords(events[..|events| - 1]) + (if events[|events| - 1].Chord? then 1 else 0)
  }

  lemma CountChordsAppend(a: seq<Event>, b: seq<Event>)
    ensures CountChords(a + b) == CountChords(a) + CountChords(b)
    decreases |b|
  {
    if b == [] {
      assert a + b == a;
    } else {
      assert (a + b)[..|a + b| - 1] == a + b[..|b| - 1];
      assert (a + b)[|a + b| - 1] == b[|b| - 1];
      CountChordsAppend(a, b[..|b| - 1]);
      assert CountChords(b) == CountChords(b[..|b| - 1]) + (if b[|b| - 1].Chord? then 1 else 0);
    }
  }

  /** The guitar part has exactly ceil(k / 8) chords; all its other events are notes. */
  lemma {:induction false} HarmonyTrackChords(norm: seq<real>, turns: seq<real>, base: real, k: nat)
    requires k <= |norm| == |turns|
    ensures CountChords(HarmonyTrack(norm, turns, base, k)) == ChordsBefore(k)
  {
    if k > 0 {
      var e := HarmonyEvents(norm[k - 1], turns[k - 1], base, k - 1);
      var before := HarmonyTrack(norm, turns, base, k - 1);
      assert HarmonyTrack(norm, turns, base, k) == before + e;
      HarmonyTrackChords(norm, turns, base, k - 1);
      CountChordsAppend(before, e);
      ChordsBeforeStep(k - 1);
      HarmonyEventsChords(norm[k - 1], turns[k - 1], base, k - 1);
    }
  }

  /** One point adds a chord exactly when its index is divisible by 8. */
  lemma HarmonyEventsChords(norm: real, turn: real, base: real, i: nat)
    ensures CountChords(HarmonyEvents(norm, turn, base, i)) == if i % 8 == 0 then 1 else 0
  {
    var e := HarmonyEvents(norm, turn, base, i);
    assert e[..1] == [e[0]];
    if i % 8 == 0 {
      assert e[..|e| - 1] == [e[0]];
    }
  }

  // ---------------------------------------------------------------------
  // The whole stream

  /** `generate_music` on the radii and normalised angles of the points. */
  function Compose(distances: seq<real>, turns: seq<real>, duration: real): (r: Result<Stream>)
    requires |distances| == |turns|
    ensures r.Failure? <==> |distances| == 0 || Constant(distances)
    ensures r.Failure? ==> r.error == (if |distances| == 0 then EmptyInput else ZeroSpread)
    ensures r.Success? ==>
              r.value.tempo == Tempo &&
              r.value.piano.instrument == Piano && r.value.synth.instrument == ElectricGuitar
  {
    match Normalize(distances)
    case Failure(e) => Failure(e)
    case Success(norm) =>
      var base := BaseDuration(duration, |norm|);
      Success(Stream(Tempo,
                     Part(Piano, LeadTrack(norm, turns, base, |norm|)),
                     Part(ElectricGuitar, HarmonyTrack(norm, turns, base, |norm|))))
  }

  /** The shape of a composed stream: n piano notes with bounded pitch and
      velocity, and n guitar notes plus ceil(n / 8) chords. Which note sits
      at which index is LeadTrackAt and HarmonyAt. */
  lemma ComposeShape(distances: seq<real>, turns: seq<real>, duration: real)
    requires |distances| == |turns|
    requires Compose(distances, turns, duration).Success?
    ensures var s, n := Compose(distances, turns, duration).value, |distances|;
      |s.piano.events| == n &&
      |s.synth.events| == n + ChordsBefore(n) &&
      CountChords(s.synth.events) == ChordsBefore(n) &&
      forall i :: 0 <= i < n ==>
        s.piano.events[i].Note? &&
        60 <= s.piano.events[i].pitch <= 84 && 60 <= s.piano.events[i].velocity <= 100
  {
    var norm := Normalize(distances).value;
    var n := |distances|;
    var base := BaseDuration(duration, n);
    var s := Compose(distances, turns, duration).value;
    HarmonyTrackLength(norm, turns, base, n);
    HarmonyTrackChords(norm, turns, base, n);
    forall i | 0 <= i < n
      ensures s.piano.events[i].Note?
      ensures 60 <= s.piano.events[i].pitch <= 84 && 60 <= s.piano.events[i].velocity <= 100
    {
      LeadTrackAt(norm, turns, base, n, i);
      LeadNoteBounds(norm[i], turns[i], base);
    }
  }

  /** `generate_music`: normalise the radii, then run the per-point loop. */
  method GenerateMusic(distances: seq<real>, turns: seq<real>, duration: real) returns (r: Result<Stream>)
    requires |distances| == |turns|
    ensures r == Compose(distances, turns, duration)
  {
    var normalized := Normalize(distances);
    if normalized.Failure? {
      return Failure(normalized.error);
    }
    var norm := normalized.value;
    var points := |norm|;
    var base := duration / (points as real) * 4.0;
    assert base == BaseDuration(duration, points);
    var piano, synth := PlayPoints(norm, turns, base);
    r := Success(Stream(Tempo, Part(Piano, piano), Part(ElectricGuitar, synth)));
  }

  /** The loop of `generate_music`: append the lead note to the piano part,
      its harmony note to the guitar part, and at every eighth point a chord. */
  method PlayPoints(norm: seq<real>, turns: seq<real>, base: real) returns (piano: seq<Event>, synth: seq<Event>)
    requires |norm| == |turns|
    ensures piano == LeadTrack(norm, turns, base, |norm|)
    ensures synth == HarmonyTrack(norm, turns, base, |norm|)
  {
    piano, synth := [], [];
    for i := 0 to |norm|
      invariant piano == LeadTrack(norm, turns, base, i)
      invariant synth == HarmonyTrack(norm, turns, base, i)
    {
      var pitch := 60 + Trunc(norm[i] * 24.0);
      var note := Note(pitch, base * (0.5 + turns[i] * 1.5), 60 + Trunc(norm[i] * 40.0));
      var harmony := Note(pitch + 4, note.duration, note.velocity - 20);
      assert note == LeadNote(norm[i], turns[i], base);
      assert harmony == HarmonyNote(note);
      piano := piano + [note];
      synth := synth + [harmony];
      if i % 8 == 0 {
        synth := synth + [Chord(Palette[i % |Palette|], base * 2.0)];
      }
    }
  }
}
