/**
 * MusicSettings.cs: the loop modes, the audio-filter kinds and the `MusicFilter` factories.
 *
 * A filter's ffmpeg expression is kept as a template: literal text interleaved with the
 * numbers the factory interpolated. `Render` turns it into the string C# builds, given the
 * number formatting (`float.ToString()` under the current culture), which is a parameter
 * of the model because it is .NET's, not the bot's.
 */
module MusicSettings {
  import opened Wrappers
  import Text

  datatype LoopType = None | CurrentSong | CurrentQueue

  /** The enum's underlying values. */
  function LoopOrdinal(t: LoopType): (n: nat)
    ensures n < 3
  {
    match t
    case None => 0
    case CurrentSong => 1
    case CurrentQueue => 2
  }

  function LoopFromOrdinal(n: nat): (t: Option<LoopType>)
    ensures t.Some? <==> n < 3
  {
    if n == 0 then Some(LoopType.None)
    else if n == 1 then Some(CurrentSong)
    else if n == 2 then Some(CurrentQueue)
    else Option.None
  }

  /** The three loop modes are exactly the values 0, 1 and 2. */
  lemma LoopOrdinalsRoundTrip(t: LoopType, n: nat)
    ensures LoopFromOrdinal(LoopOrdinal(t)) == Some(t)
    ensures n < 3 ==> LoopOrdinal(LoopFromOrdinal(n).value) == n
  {
  }

  datatype AudioFilter =
    | BassBost | Pitch | Tempo | Nightcore | Slowdown | Reverb
    | Chorus | Distortion | Flanger | Tremolo | Vibrato | Phaser

  /** The enum's declaration order. */
  const AllFilters: seq<AudioFilter> :=
    [BassBost, Pitch, Tempo, Nightcore, Slowdown, Reverb, Chorus, Distortion, Flanger, Tremolo, Vibrato, Phaser]

  lemma AllFiltersListsEveryKindOnce(k: AudioFilter)
    ensures k in AllFilters
    ensures forall i, j :: 0 <= i < j < |AllFilters| ==> AllFilters[i] != AllFilters[j]
  {
  }

  /** A value interpolated into a filter expression: a `float` or a `uint`. */
  datatype Hole = Float(x: real) | UInt(n: nat)

  /**
   * An interpolated string: `parts[0]`, then each hole followed by the next part.
   * The holes are the factory's parameters, in the order the expression shows them.
   */
  datatype Interpolated = Interpolated(parts: seq<string>, holes: seq<Hole>) {
    ghost predicate Valid() {
      |parts| == |holes| + 1
    }
  }

  function RenderHole(h: Hole, fmt: real -> string): string {
    match h
    case Float(x) => fmt(x)
    case UInt(n) => Text.NatToString(n)
  }

  /** The string C# builds from the interpolation, given how `float`s are printed. */
  function Render(e: Interpolated, fmt: real -> string): string
    decreases |e.holes|
  {
    if |e.parts| == 0 then ""
    else if |e.holes| == 0 then e.parts[0]
    else e.parts[0] + RenderHole(e.holes[0], fmt) + Render(Interpolated(e.parts[1..], e.holes[1..]), fmt)
  }

  /** An expression without holes renders as its text, whatever the number formatting. */
  lemma RenderWithoutHoles(e: Interpolated, fmt: real -> string)
    requires e.Valid() && e.holes == []
    ensures Render(e, fmt) == e.parts[0]
  {
  }

  /** `MusicFilter`: the expression, the display name, and the strength the filter command stores. */
  datatype MusicFilter = MusicFilter(musicFilter: Interpolated, filterName: string, strength: Option<real>) {
    ghost predicate Valid() {
      musicFilter.Valid()
    }
  }

  /** `Math.Clamp` on `float`. */
  function Clamp(x: real, lo: real, hi: real): (r: real)
    requires lo <= hi
    ensures lo <= r <= hi
    ensures lo <= x <= hi ==> r == x
    ensures x < lo ==> r == lo
    ensures hi < x ==> r == hi
  {
    if x < lo then lo else if x > hi then hi else x
  }

  /** The `(uint)` cast of a `float`: truncation toward zero, saturating at both ends of the range. */
  function ToUInt(x: real): (r: nat)
    ensures r <= Text.UInt32Max
    ensures 0.0 <= x < (Text.UInt32Max + 1) as real ==> r as real <= x < r as real + 1.0
  {
    if x <= 0.0 then 0 else if x >= (Text.UInt32Max + 1) as real then Text.UInt32Max else x.Floor
  }

  // The factories. Each gives a fixed display name and leaves `strength` unset.

  function BassFilter(gain: real := 10.0, frequency: Text.UInt32 := 100, bandwidth: real := 0.3): (f: MusicFilter)
    ensures f.Valid() && f.filterName == "Bass" && f.strength == Option.None
    ensures f.musicFilter.parts == ["bass=g=", ":f=", ":w=", ""]
    ensures f.musicFilter.holes == [Float(gain), UInt(frequency), Float(bandwidth)]
  {
    MusicFilter(Interpolated(["bass=g=", ":f=", ":w=", ""], [Float(gain), UInt(frequency), Float(bandwidth)]), "Bass", Option.None)
  }

  function PitchFilter(pitch: real := 1.0): (f: MusicFilter)
    ensures f.Valid() && f.filterName == "Pitch" && f.strength == Option.None
    ensures f.musicFilter.parts == ["rubberband=pitch=", ""] && f.musicFilter.holes == [Float(pitch)]
  {
    MusicFilter(Interpolated(["rubberband=pitch=", ""], [Float(pitch)]), "Pitch", Option.None)
  }

  /**
   * True of `h` exactly when it is a number that is `x` brought into [lo, hi]: `x` itself inside
   * the range, and the nearer bound outside it.
   */
  predicate IsClampedTo(h: Hole, x: real, lo: real, hi: real) {
    && h.Float?
    && lo <= h.x <= hi
    && (lo <= x <= hi ==> h.x == x)
    && (x < lo ==> h.x == lo)
    && (hi < x ==> h.x == hi)
  }

  /** The tempo clamped into ffmpeg's `atempo` range [0.5, 2.0]. */
  predicate IsClampedTempo(h: Hole, tempo: real) {
    IsClampedTo(h, tempo, 0.5, 2.0)
  }

  function TempoFilter(tempo: real := 1.0): (f: MusicFilter)
    ensures f.Valid() && f.filterName == "Tempo" && f.strength == Option.None
    ensures f.musicFilter.parts == ["atempo=", ""]
    ensures |f.musicFilter.holes| == 1 && IsClampedTempo(f.musicFilter.holes[0], tempo)
  {
    MusicFilter(Interpolated(["atempo=", ""], [Float(Clamp(tempo, 0.5, 2.0))]), "Tempo", Option.None)
  }

  /** The shared shape of Nightcore and Slowdown: a resample to 48000 x pitch, then a clamped tempo. */
  function ResampleTempo(pitch: real, tempo: real): Interpolated {
    Interpolated(["asetrate=", ", atempo=", ""], [UInt(ToUInt(48000.0 * pitch)), Float(Clamp(tempo, 0.5, 2.0))])
  }

  /** `asetrate=` the rate, 48000 x pitch truncated to a `uint`, then `, atempo=` the clamped tempo. */
  predicate IsResampleTempo(e: Interpolated, pitch: real, tempo: real) {
    && e.parts == ["asetrate=", ", atempo=", ""]
    && |e.holes| == 2
    && e.holes[0] == UInt(ToUInt(48000.0 * pitch))
    && IsClampedTempo(e.holes[1], tempo)
  }

  function NightcoreFilter(pitch: real := 1.15, tempo: real := 1.25): (f: MusicFilter)
    ensures f.Valid() && f.filterName == "Nightcore" && f.strength == Option.None
    ensures IsResampleTempo(f.musicFilter, pitch, tempo)
  {
    MusicFilter(ResampleTempo(pitch, tempo), "Nightcore", Option.None)
  }

  function SlowdownFilter(pitch: real := 0.83, tempo: real := 0.87): (f: MusicFilter)
    ensures f.Valid() && f.filterName == "Slowdown" && f.strength == Option.None
    ensures IsResampleTempo(f.musicFilter, pitch, tempo)
  {
    MusicFilter(ResampleTempo(pitch, tempo), "Slowdown", Option.None)
  }

  function ReverbFilter(inGain: real := 0.8, outGain: real := 0.9, delays: real := 1000.0, decays: real := 0.3): (f: MusicFilter)
    ensures f.Valid() && f.filterName == "Reverb" && f.strength == Option.None
    ensures f.musicFilter.parts == ["aecho=", ":", ":", ":", ""]
    ensures var hs := f.musicFilter.holes;
      && |hs| == 4 && hs[0] == Float(inGain) && hs[1] == Float(outGain)
      && IsClampedTo(hs[2], delays, 0.0, 90000.0) && IsClampedTo(hs[3], decays, 0.0, 1.0)
  {
    MusicFilter(Interpolated(["aecho=", ":", ":", ":", ""],
                             [Float(inGain), Float(outGain), Float(Clamp(delays, 0.0, 90000.0)), Float(Clamp(decays, 0.0, 1.0))]),
                "Reverb", Option.None)
  }

  function ChorusFilter(inGain: real := 0.5, outGain: real := 0.9, delays: real := 60.0, decays: real := 0.4,
                        speeds: real := 0.25, depths: real := 2.0): (f: MusicFilter)
    ensures f.Valid() && f.filterName == "Chorus" && f.strength == Option.None
    ensures f.musicFilter.parts == ["chorus=", ":", ":", ":", ":", ":", ""]
    ensures f.musicFilter.holes == [Float(inGain), Float(outGain), Float(delays), Float(decays), Float(speeds), Float(depths)]
  {
    MusicFilter(Interpolated(["chorus=", ":", ":", ":", ":", ":", ""],
                             [Float(inGain), Float(outGain), Float(delays), Float(decays), Float(speeds), Float(depths)]),
                "Chorus", Option.None)
  }

  const DistortionExpression: string := "acrusher=bits=4:mix=0.8,volume=3.0,firequalizer=gain='if(between(f,1000,2000),15,0)'"
  const FlangerExpression: string := "flanger"
  const PhaserExpression: string := "aphaser=in_gain=0.9:out_gain=1.0:delay=4.5:decay=0.8:speed=1.5:type=t"

  /** A fixed expression: no holes, one part. */
  function Fixed(text: string): (e: Interpolated)
    ensures e.Valid() && e.holes == []
    ensures forall fmt: real -> string :: Render(e, fmt) == text
  {
    Interpolated([text], [])
  }

  function DistortionFilter(): (f: MusicFilter)
    ensures f.Valid() && f.filterName == "Distortion" && f.strength == Option.None
    ensures f.musicFilter == Fixed(DistortionExpression)
  {
    MusicFilter(Fixed(DistortionExpression), "Distortion", Option.None)
  }

  function FlangerFilter(): (f: MusicFilter)
    ensures f.Valid() && f.filterName == "Flanger" && f.strength == Option.None
    ensures f.musicFilter == Fixed(FlangerExpression)
  {
    MusicFilter(Fixed(FlangerExpression), "Flanger", Option.None)
  }

  /** Tremolo and Vibrato: frequency clamped to [0.1, 20000], depth to [0, 1]. */
  predicate IsModulation(hs: seq<Hole>, frequency: real, depth: real) {
    && |hs| == 2
    && IsClampedTo(hs[0], frequency, 0.1, 20000.0) && IsClampedTo(hs[1], depth, 0.0, 1.0)
  }

  function TremoloFilter(frequenzy: real := 5.0, depth: real := 0.8): (f: MusicFilter)
    ensures f.Valid() && f.filterName == "Tremolo" && f.strength == Option.None
    ensures f.musicFilter.parts == ["tremolo=f=", ":d=", ""]
    ensures IsModulation(f.musicFilter.holes, frequenzy, depth)
  {
    MusicFilter(Interpolated(["tremolo=f=", ":d=", ""], [Float(Clamp(frequenzy, 0.1, 20000.0)), Float(Clamp(depth, 0.0, 1.0))]),
                "Tremolo", Option.None)
  }

  function VibratoFilter(frequenzy: real := 5.0, depth: real := 0.1): (f: MusicFilter)
    ensures f.Valid() && f.filterName == "Vibrato" && f.strength == Option.None
    ensures f.musicFilter.parts == ["vibrato=f=", ":d=", ""]
    ensures IsModulation(f.musicFilter.holes, frequenzy, depth)
  {
    MusicFilter(Interpolated(["vibrato=f=", ":d=", ""], [Float(Clamp(frequenzy, 0.1, 20000.0)), Float(Clamp(depth, 0.0, 1.0))]),
                "Vibrato", Option.None)
  }

  function PhaserFilter(): (f: MusicFilter)
    ensures f.Valid() && f.filterName == "Phaser" && f.strength == Option.None
    ensures f.musicFilter == Fixed(PhaserExpression)
  {
    MusicFilter(Fixed(PhaserExpression), "Phaser", Option.None)
  }

  /** The parameterless filters render one fixed expression, whatever the number formatting. */
  lemma FixedExpressions(fmt: real -> string)
    ensures Render(DistortionFilter().musicFilter, fmt) == DistortionExpression
    ensures Render(FlangerFilter().musicFilter, fmt) == FlangerExpression
    ensures Render(PhaserFilter().musicFilter, fmt) == PhaserExpression
  {
  }

  /** Nightcore's and Slowdown's `asetrate` is 48000 x pitch with the fraction dropped. */
  lemma ResampleRate(pitch: real, tempo: real)
    requires 0.0 <= 48000.0 * pitch < 4294967296.0
    ensures var r := NightcoreFilter(pitch, tempo).musicFilter.holes[0].n;
      && r == SlowdownFilter(pitch, tempo).musicFilter.holes[0].n
      && r as real <= 48000.0 * pitch < r as real + 1.0
  {
  }

  /** The rendered Bass and Tempo expressions, spelled out. */
  lemma RenderedExamples(fmt: real -> string, gain: real, frequency: Text.UInt32, bandwidth: real, tempo: real)
    ensures Render(BassFilter(gain, frequency, bandwidth).musicFilter, fmt)
         == "bass=g=" + fmt(gain) + ":f=" + Text.NatToString(frequency) + ":w=" + fmt(bandwidth)
    ensures Render(TempoFilter(tempo).musicFilter, fmt) == "atempo=" + fmt(Clamp(tempo, 0.5, 2.0))
  {
    var e3 := Interpolated([""], []);
    var e2 := Interpolated([":w=", ""], [Float(bandwidth)]);
    var e1 := Interpolated([":f=", ":w=", ""], [UInt(frequency), Float(bandwidth)]);
    assert Render(e2, fmt) == ":w=" + fmt(bandwidth) + Render(e3, fmt);
    assert Render(e1, fmt) == ":f=" + Text.NatToString(frequency) + Render(e2, fmt);
    assert Render(BassFilter(gain, frequency, bandwidth).musicFilter, fmt) == "bass=g=" + fmt(gain) + Render(e1, fmt);
  }
  /** `rubberband=pitch=` followed by the pitch. */
  lemma RenderedPitch(fmt: real -> string, pitch: real)
    ensures Render(PitchFilter(pitch).musicFilter, fmt) == "rubberband=pitch=" + fmt(pitch)
  {
    assert Render(Interpolated([""], []), fmt) == "";
  }

  /** Nightcore and Slowdown: `asetrate=` the truncated rate, then `, atempo=` the clamped tempo. */
  lemma RenderedResample(fmt: real -> string, pitch: real, tempo: real)
    ensures var text := "asetrate=" + Text.NatToString(ToUInt(48000.0 * pitch)) + ", atempo=" + fmt(Clamp(tempo, 0.5, 2.0));
      && Render(NightcoreFilter(pitch, tempo).musicFilter, fmt) == text
      && Render(SlowdownFilter(pitch, tempo).musicFilter, fmt) == text
  {
    var e1 := Interpolated([", atempo=", ""], [Float(Clamp(tempo, 0.5, 2.0))]);
    assert Render(e1, fmt) == ", atempo=" + fmt(Clamp(tempo, 0.5, 2.0)) + Render(Interpolated([""], []), fmt);
    assert Render(ResampleTempo(pitch, tempo), fmt) == "asetrate=" + Text.NatToString(ToUInt(48000.0 * pitch)) + Render(e1, fmt);
  }

  /** The expression from its `k`-th part on, with the holes that follow those parts. */
  function Suffix(e: Interpolated, k: nat): (s: Interpolated)
    requires e.Valid() && k <= |e.holes|
    ensures s.Valid() && |s.holes| == |e.holes| - k
  {
    Interpolated(e.parts[k..], e.holes[k..])
  }

  /** Proof step: a suffix renders as its first part and hole, then the next suffix; the last one is its text. */
  lemma RenderSuffix(e: Interpolated, k: nat, fmt: real -> string)
    requires e.Valid() && k <= |e.holes|
    ensures k == 0 ==> Suffix(e, k) == e
    ensures k == |e.holes| ==> Render(Suffix(e, k), fmt) == e.parts[k]
    ensures k < |e.holes| ==> Render(Suffix(e, k), fmt) == e.parts[k] + RenderHole(e.holes[k], fmt) + Render(Suffix(e, k + 1), fmt)
  {
    if k < |e.holes| {
      assert e.parts[k..][1..] == e.parts[k + 1..] && e.holes[k..][1..] == e.holes[k + 1..];
    }
  }

  /** `aecho=` with the two gains, the clamped delay and the clamped decay, separated by colons. */
  lemma RenderedReverb(fmt: real -> string, inGain: real, outGain: real, delays: real, decays: real)
    ensures Render(ReverbFilter(inGain, outGain, delays, decays).musicFilter, fmt)
         == "aecho=" + fmt(inGain) + (":" + fmt(outGain) + (":" + fmt(Clamp(delays, 0.0, 90000.0)) + (":" + fmt(Clamp(decays, 0.0, 1.0)))))
  {
    var e := ReverbFilter(inGain, outGain, delays, decays).musicFilter;
    RenderSuffix(e, 4, fmt);
    RenderSuffix(e, 3, fmt);
    assert Render(Suffix(e, 3), fmt) == ":" + fmt(Clamp(decays, 0.0, 1.0));
    RenderSuffix(e, 2, fmt);
    RenderSuffix(e, 1, fmt);
    RenderSuffix(e, 0, fmt);
  }

  /** `chorus=` with its six parameters as given, separated by colons. */
  lemma RenderedChorus(fmt: real -> string, inGain: real, outGain: real, delays: real, decays: real, speeds: real, depths: real)
    ensures Render(ChorusFilter(inGain, outGain, delays, decays, speeds, depths).musicFilter, fmt)
         == "chorus=" + fmt(inGain) + (":" + fmt(outGain) + (":" + fmt(delays) + (":" + fmt(decays) + (":" + fmt(speeds) + (":" + fmt(depths))))))
  {
    var e := ChorusFilter(inGain, outGain, delays, decays, speeds, depths).musicFilter;
    RenderSuffix(e, 6, fmt);
    RenderSuffix(e, 5, fmt);
    assert Render(Suffix(e, 5), fmt) == ":" + fmt(depths);
    RenderSuffix(e, 4, fmt);
    RenderSuffix(e, 3, fmt);
    RenderSuffix(e, 2, fmt);
    RenderSuffix(e, 1, fmt);
    RenderSuffix(e, 0, fmt);
  }

  /**
   * Tremolo and Vibrato differ only in the effect they name: `tremolo=f=` or `vibrato=f=`, the
   * clamped frequency, `:d=` and the clamped depth.
   */
  lemma RenderedModulation(fmt: real -> string, frequenzy: real, depth: real)
    ensures var rest := fmt(Clamp(frequenzy, 0.1, 20000.0)) + ":d=" + fmt(Clamp(depth, 0.0, 1.0));
      && Render(TremoloFilter(frequenzy, depth).musicFilter, fmt) == "tremolo=f=" + rest
      && Render(VibratoFilter(frequenzy, depth).musicFilter, fmt) == "vibrato=f=" + rest
  {
    var f, d := Clamp(frequenzy, 0.1, 20000.0), Clamp(depth, 0.0, 1.0);
    var e1 := Interpolated([":d=", ""], [Float(d)]);
    assert Render(e1, fmt) == ":d=" + fmt(d) + Render(Interpolated([""], []), fmt);
    assert Render(TremoloFilter(frequenzy, depth).musicFilter, fmt) == "tremolo=f=" + fmt(f) + Render(e1, fmt);
    assert Render(VibratoFilter(frequenzy, depth).musicFilter, fmt) == "vibrato=f=" + fmt(f) + Render(e1, fmt);
  }
}
