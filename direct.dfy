/** The generators whose generateScale loops fill the table directly, without
    the tiling or pair-spread engines: the closed forms of video_generator,
    b296_generator and shrutis_generator, and the running products of
    gamma_generator, et17_generator, diatoniceq_generator and
    et_chromatic_generator. Each is its own method over the same flat table. */
module DirectExpander {
  import opened Table

  /** NTSC frame rate, the fundamental of the video table. */
  const VideoStart: real := 59.94
  /** Start of the gamma chain and its step in cents. */
  const GammaStart: real := 120.0
  const GammaCents: real := 35.099
  /** Start of the 17-TET table (A-1). */
  const Et17Start: real := 13.75

  // ---------------------------------------------------------------- video

  /** Note n of sub-scale s of the video table: the first ten sub-scales
      are harmonic series on the (s+1)-th multiple of the frame rate; the
      last lists 15729.. for notes 0..10 and 31474.. for notes 11..20. */
  function VideoFrequency(s: nat, n: nat): real
  {
    if s < 10 then VideoStart * (n + 1) as real * (s + 1) as real
    else if n < 11 then (15729 + n) as real
    else (31463 + n) as real
  }

  /** The first ten sub-scales are harmonic series: note n is n+1 times the
      sub-scale's first note, which is s+1 times the frame rate. */
  lemma VideoHarmonics(s: nat, n: nat)
    requires s < 10 && n < NumFreqs
    ensures VideoFrequency(s, 0) == (s + 1) as real * VideoStart
    ensures VideoFrequency(s, n) == (n + 1) as real * VideoFrequency(s, 0)
  {
  }

  /** The last sub-scale is two runs of consecutive integers, with a jump
      between notes 10 and 11. */
  lemma VideoLastSubScale(n: nat)
    requires n < NumFreqs
    ensures n < 10 ==> VideoFrequency(10, n + 1) == VideoFrequency(10, n) + 1.0
    ensures 11 <= n < 20 ==> VideoFrequency(10, n + 1) == VideoFrequency(10, n) + 1.0
    ensures VideoFrequency(10, 10) == 15739.0 && VideoFrequency(10, 11) == 31474.0
  {
  }

  /** Block s of f holds the video values of sub-scale s. */
  ghost predicate VideoBlock(f: seq<real>, s: nat)
    requires Base(s) + NumFreqs <= |f|
  {
    forall k :: InBlock(k, Base(s)) ==> f[k] == VideoFrequency(s, k - Base(s))
  }

  /** One pass of the outer loop of video_generator::generateScale. */
  method FillVideoBlock(freq: array<real>, s: nat)
    requires freq.Length == TableSize && s < NumScales
    modifies freq
    ensures forall k :: 0 <= k < TableSize && !InBlock(k, Base(s)) ==> freq[k] == old(freq[k])
    ensures VideoBlock(freq[..], s)
  {
    var base := Base(s);
    if s < 10 {
      for noteIdx := 0 to NumFreqs
        invariant forall k :: 0 <= k < TableSize && !(base <= k < base + noteIdx) ==> freq[k] == old(freq[k])
        invariant forall k :: base <= k < base + noteIdx ==> freq[k] == VideoFrequency(s, k - base)
      {
        freq[base + noteIdx] := VideoStart * (noteIdx + 1) as real * (s + 1) as real;
      }
    } else {
      for noteIdx := 0 to 11
        invariant forall k :: 0 <= k < TableSize && !(base <= k < base + noteIdx) ==> freq[k] == old(freq[k])
        invariant forall k :: base <= k < base + noteIdx ==> freq[k] == VideoFrequency(s, k - base)
      {
        freq[base + noteIdx] := (15729 + noteIdx) as real;
      }
      for noteIdx := 11 to NumFreqs
        invariant forall k :: 0 <= k < TableSize && !(base <= k < base + noteIdx) ==> freq[k] == old(freq[k])
        invariant forall k :: base <= k < base + noteIdx ==> freq[k] == VideoFrequency(s, k - base)
      {
        freq[base + noteIdx] := (31463 + noteIdx) as real;
      }
    }
  }

  /** video_generator::generateScale, frequency part: every sub-scale holds
      its video values. */
  method VideoFrequencies(freq: array<real>)
    requires freq.Length == TableSize
    modifies freq
    ensures forall s :: 0 <= s < NumScales ==> VideoBlock(freq[..], s)
  {
    for scaleIdx := 0 to NumScales
      invariant forall s :: 0 <= s < scaleIdx ==> VideoBlock(freq[..], s)
    {
      ghost var before := freq[..];
      FillVideoBlock(freq, scaleIdx);
      forall s, k | 0 <= s < scaleIdx && InBlock(k, Base(s))
        ensures freq[k] == VideoFrequency(s, k - Base(s))
      {
        assert VideoBlock(before, s);
        assert freq[k] == before[k];
      }
    }
  }

  // ---------------------------------------------------------------- Buchla 296

  /** The raise of sub-scale s: s quarter-tones, `pow(2, s / 24.0)`. */
  function QuarterTones(pow: Pow, s: nat): real
  {
    pow(2.0, s as real / 24.0)
  }

  /** Block s of f is the 21 bands raised by `raise`. */
  ghost predicate BandsBlock(f: seq<real>, s: nat, raise: real, bands: seq<real>)
    requires Base(s) + NumFreqs <= |f| && |bands| == NumFreqs
  {
    forall k :: InBlock(k, Base(s)) ==> f[k] == raise * bands[k - Base(s)]
  }

  /** One pass of the outer loop of b296_generator::generateScale. */
  method FillBandsBlock(freq: array<real>, s: nat, raise: real, bands: seq<real>)
    requires freq.Length == TableSize && s < NumScales && |bands| == NumFreqs
    modifies freq
    ensures forall k :: 0 <= k < TableSize && !InBlock(k, Base(s)) ==> freq[k] == old(freq[k])
    ensures BandsBlock(freq[..], s, raise, bands)
  {
    var base := Base(s);
    for noteIdx := 0 to NumFreqs
      invariant forall k :: 0 <= k < TableSize && !(base <= k < base + noteIdx) ==> freq[k] == old(freq[k])
      invariant forall k :: base <= k < base + noteIdx ==> freq[k] == raise * bands[k - base]
    {
      freq[base + noteIdx] := raise * bands[noteIdx];
    }
  }

  /** b296_generator::generateScale: sub-scale s is the 21 band frequencies
      raised by s quarter-tones, `pow(2, s / 24.0)`. */
  method B296Frequencies(freq: array<real>, bands: seq<real>, pow: Pow)
    requires freq.Length == TableSize && |bands| == NumFreqs
    modifies freq
    ensures forall s :: 0 <= s < NumScales ==> BandsBlock(freq[..], s, QuarterTones(pow, s), bands)
  {
    for scaleIdx := 0 to NumScales
      invariant forall s :: 0 <= s < scaleIdx ==> BandsBlock(freq[..], s, QuarterTones(pow, s), bands)
    {
      ghost var before := freq[..];
      var startFreq := QuarterTones(pow, scaleIdx);
      FillBandsBlock(freq, scaleIdx, startFreq, bands);
      forall s, k | 0 <= s < scaleIdx && InBlock(k, Base(s))
        ensures freq[k] == QuarterTones(pow, s) * bands[k - Base(s)]
      {
        assert BandsBlock(before, s, QuarterTones(pow, s), bands);
        assert freq[k] == before[k];
      }
    }
  }

  // ---------------------------------------------------------------- shrutis

  /** The octave of sub-scale s, `pow(2, s)`. */
  function Octaves(pow: Pow, s: nat): real
  {
    pow(2.0, s as real)
  }

  /** Block s of f holds the shruti ratios on `start * octave`. */
  ghost predicate ShrutiBlock(f: seq<real>, s: nat, start: real, ratios: seq<real>, octave: real)
    requires Base(s) + NumFreqs <= |f| && |ratios| == NumFreqs
  {
    forall k :: InBlock(k, Base(s)) ==> f[k] == start * ratios[k - Base(s)] * octave
  }

  /** Block s of names holds the 21 shruti names. */
  ghost predicate ShrutiNamed(names: seq<string>, s: nat, strs: seq<string>)
    requires Base(s) + NumFreqs <= |names| && |strs| == NumFreqs
  {
    forall k :: InBlock(k, Base(s)) ==> names[k] == strs[k - Base(s)]
  }

  /** One pass of the outer loop of shrutis_generator::generateScale. */
  method FillShrutiBlock(freq: array<real>, notename: array<string>, s: nat, start: real,
                         ratios: seq<real>, strs: seq<string>, octave: real)
    requires freq.Length == TableSize && notename.Length == TableSize && s < NumScales
    requires |ratios| == NumFreqs && |strs| == NumFreqs
    modifies freq, notename
    ensures forall k :: 0 <= k < TableSize && !InBlock(k, Base(s)) ==> freq[k] == old(freq[k]) && notename[k] == old(notename[k])
    ensures ShrutiBlock(freq[..], s, start, ratios, octave)
    ensures ShrutiNamed(notename[..], s, strs)
  {
    var base := Base(s);
    for noteIdx := 0 to NumFreqs
      invariant forall k :: 0 <= k < TableSize && !(base <= k < base + noteIdx) ==>
        freq[k] == old(freq[k]) && notename[k] == old(notename[k])
      invariant forall k :: base <= k < base + noteIdx ==> freq[k] == start * ratios[k - base] * octave
      invariant forall k :: base <= k < base + noteIdx ==> notename[k] == strs[k - base]
    {
      freq[base + noteIdx] := start * ratios[noteIdx] * octave;
      notename[base + noteIdx] := strs[noteIdx];
    }
  }

  /** Writing only the block of sub-scale `cur` keeps an earlier shruti block. */
  lemma ShrutiFrame(f: seq<real>, g: seq<real>, names: seq<string>, names': seq<string>, s: nat, cur: nat,
                    start: real, ratios: seq<real>, strs: seq<string>, octave: real)
    requires |f| == |g| == |names| == |names'| == TableSize && s < cur < NumScales
    requires |ratios| == NumFreqs && |strs| == NumFreqs
    requires ShrutiBlock(f, s, start, ratios, octave) && ShrutiNamed(names, s, strs)
    requires forall k :: 0 <= k < TableSize && !InBlock(k, Base(cur)) ==> g[k] == f[k] && names'[k] == names[k]
    ensures ShrutiBlock(g, s, start, ratios, octave) && ShrutiNamed(names', s, strs)
  {
    assert Base(s) + NumFreqs <= Base(cur);
  }

  /** shrutis_generator::generateScale: sub-scale s is the 21 shruti ratios
      on `start * pow(2, s)`, and every sub-scale carries the same 21 names. */
  method ShrutisScale(freq: array<real>, notename: array<string>, start: real, ratios: seq<real>, strs: seq<string>, pow: Pow)
    requires freq.Length == TableSize && notename.Length == TableSize
    requires |ratios| == NumFreqs && |strs| == NumFreqs
    modifies freq, notename
    ensures forall s :: 0 <= s < NumScales ==> ShrutiBlock(freq[..], s, start, ratios, Octaves(pow, s))
    ensures forall s :: 0 <= s < NumScales ==> ShrutiNamed(notename[..], s, strs)
  {
    for scaleIdx := 0 to NumScales
      invariant forall s :: 0 <= s < scaleIdx ==> ShrutiBlock(freq[..], s, start, ratios, Octaves(pow, s))
      invariant forall s :: 0 <= s < scaleIdx ==> ShrutiNamed(notename[..], s, strs)
    {
      ghost var before, namesBefore := freq[..], notename[..];
      FillShrutiBlock(freq, notename, scaleIdx, start, ratios, strs, Octaves(pow, scaleIdx));
      forall s | 0 <= s < scaleIdx
        ensures ShrutiBlock(freq[..], s, start, ratios, Octaves(pow, s))
        ensures ShrutiNamed(notename[..], s, strs)
      {
        ShrutiFrame(before, freq[..], namesBefore, notename[..], s, scaleIdx, start, ratios, strs, Octaves(pow, s));
      }
    }
  }

  // ---------------------------------------------------------------- running products

  /** The inner loop shared by the running-product generators: note 0 of
      sub-scale s is `first`, every later note the previous one times `step`. */
  method FillLadder(freq: array<real>, s: nat, first: real, step: real)
    requires freq.Length == TableSize && s < NumScales
    modifies freq
    ensures forall k :: 0 <= k < TableSize && !InBlock(k, Base(s)) ==> freq[k] == old(freq[k])
    ensures Ladder(freq[..], Base(s), first, step)
  {
    var base := Base(s);
    freq[base] := first;
    for noteIdx := 1 to NumFreqs
      invariant forall k :: 0 <= k < TableSize && !(base <= k < base + noteIdx) ==> freq[k] == old(freq[k])
      invariant forall k :: base <= k < base + noteIdx ==> freq[k] == LadderValue(first, step, k - base)
    {
      freq[base + noteIdx] := freq[base + noteIdx - 1] * step;
    }
  }

  /** gamma_generator::generateScale: one chain of 35.099-cent steps from
      120 Hz; each sub-scale after the first starts on the last note of the
      sub-scale before it. */
  method GammaFrequencies(freq: array<real>, pow: Pow)
    requires freq.Length == TableSize
    modifies freq
    ensures forall s :: 0 <= s < NumScales ==>
      Ladder(freq[..], Base(s), if s == 0 then GammaStart else freq[Base(s) - 1], pow(2.0, GammaCents / 1200.0))
  {
    var step := pow(2.0, GammaCents / 1200.0);
    var f := GammaStart;
    for scaleIdx := 0 to NumScales
      invariant f == if scaleIdx == 0 then GammaStart else freq[Base(scaleIdx) - 1]
      invariant forall s :: 0 <= s < scaleIdx ==>
        Ladder(freq[..], Base(s), if s == 0 then GammaStart else freq[Base(s) - 1], step)
    {
      ghost var before := freq[..];
      FillLadder(freq, scaleIdx, f, step);
      forall s | 0 <= s < scaleIdx
        ensures Ladder(freq[..], Base(s), if s == 0 then GammaStart else freq[Base(s) - 1], step)
      {
        assert Base(s) + NumFreqs <= Base(scaleIdx);
        assert forall k :: 0 <= k < Base(s) + NumFreqs ==> freq[k] == before[k];
      }
      f := freq[Base(scaleIdx) + NumFreqs - 1];
    }
  }

  /** The gamma table is one geometric chain: note n of sub-scale s lies
      20 s + n steps above the start (each sub-scale repeats the previous
      sub-scale's last note, so it adds 20 steps, not 21). */
  lemma {:induction false} GammaClosedForm(f: seq<real>, start: real, step: real, s: nat, n: nat)
    requires |f| == TableSize && s < NumScales && n < NumFreqs
    requires forall t :: 0 <= t < NumScales ==> Ladder(f, Base(t), if t == 0 then start else f[Base(t) - 1], step)
    ensures f[Base(s) + n] == start * IPow(step, 20 * s + n)
  {
    var first := if s == 0 then start else f[Base(s) - 1];
    var top := f[Base(s) + n];
    BlockNote(f, Base(s), first, step, n);
    if s == 0 {
      assert 20 * s + n == n && first == start;
    } else {
      var m := 20 * (s - 1) + 20;
      GammaClosedForm(f, start, step, s - 1, 20);
      assert Base(s - 1) + 20 == Base(s) - 1;
      StepsAdd(start, step, first, top, m, n);
      assert m + n == 20 * s + n;
    }
  }

  /** Note n of a geometric block is `first * step^n`. */
  lemma BlockNote(f: seq<real>, base: nat, first: real, step: real, n: nat)
    requires base + NumFreqs <= |f| && n < NumFreqs
    requires Ladder(f, base, first, step)
    ensures f[base + n] == first * IPow(step, n)
  {
    assert InBlock(base + n, base);
    LadderClosedForm(first, step, n);
  }

  /** Climbing m steps and then n more is climbing m + n steps. */
  lemma StepsAdd(start: real, step: real, mid: real, top: real, m: nat, n: nat)
    requires mid == start * IPow(step, m) && top == mid * IPow(step, n)
    ensures top == start * IPow(step, m + n)
  {
    IPowAdd(step, m, n);
    MulAssoc(start, IPow(step, m), IPow(step, n));
  }

  /** First note of sub-scale s of the 17-TET table. */
  function Et17First(s: nat): real
  {
    Et17Start * IPow(2.0, s)
  }

  /** Consecutive sub-scales of the 17-TET table start one octave apart. */
  lemma Et17Doubles(s: nat)
    ensures Et17First(s + 1) == Et17First(s) * 2.0
  {
    assert IPow(2.0, s + 1) == IPow(2.0, s) * 2.0;
  }

  /** et17_generator::generateScale: sub-scale s starts at 13.75 * 2^s Hz
      (the start is doubled after each sub-scale) and climbs in steps of
      `pow(2, 1/17)`. */
  method Et17Frequencies(freq: array<real>, pow: Pow)
    requires freq.Length == TableSize
    modifies freq
    ensures forall s :: 0 <= s < NumScales ==>
      Ladder(freq[..], Base(s), Et17First(s), pow(2.0, 1.0 / 17.0))
  {
    var step := pow(2.0, 1.0 / 17.0);
    var f := Et17Start;
    for scaleIdx := 0 to NumScales
      invariant f == Et17First(scaleIdx)
      invariant forall s :: 0 <= s < scaleIdx ==> Ladder(freq[..], Base(s), Et17First(s), step)
    {
      ghost var before := freq[..];
      FillLadder(freq, scaleIdx, f, step);
      forall s | 0 <= s < scaleIdx
        ensures Ladder(freq[..], Base(s), Et17First(s), step)
      {
        assert Base(s) + NumFreqs <= Base(scaleIdx);
        assert forall k :: InBlock(k, Base(s)) ==> freq[k] == before[k];
      }
      Et17Doubles(scaleIdx);
      f := f * 2.0;
    }
  }

  /** The generateScale loop of diatoniceq_generator and et_chromatic_generator:
      sub-scale s starts at `starts[s]` and climbs by `step`. Only the first 11
      start frequencies are read. */
  method StartsLadders(freq: array<real>, starts: seq<real>, step: real)
    requires freq.Length == TableSize && |starts| >= NumScales
    modifies freq
    ensures forall s :: 0 <= s < NumScales ==> Ladder(freq[..], Base(s), starts[s], step)
  {
    for scaleIdx := 0 to NumScales
      invariant forall s :: 0 <= s < scaleIdx ==> Ladder(freq[..], Base(s), starts[s], step)
    {
      ghost var before := freq[..];
      FillLadder(freq, scaleIdx, starts[scaleIdx], step);
      forall s | 0 <= s < scaleIdx
        ensures Ladder(freq[..], Base(s), starts[s], step)
      {
        assert Base(s) + NumFreqs <= Base(scaleIdx);
        assert forall k :: InBlock(k, Base(s)) ==> freq[k] == before[k];
      }
    }
  }

  /** diatoniceq_generator::generateScale: whole-tone steps `pow(2, 2/12)`. */
  method DiatonicEqFrequencies(freq: array<real>, starts: seq<real>, pow: Pow)
    requires freq.Length == TableSize && |starts| >= NumScales
    modifies freq
    ensures forall s :: 0 <= s < NumScales ==> Ladder(freq[..], Base(s), starts[s], pow(2.0, 2.0 / 12.0))
  {
    StartsLadders(freq, starts, pow(2.0, 2.0 / 12.0));
  }

  /** et_chromatic_generator::generateScale: semitone steps `pow(2, 1/12)`. */
  method EtChromaticFrequencies(freq: array<real>, starts: seq<real>, pow: Pow)
    requires freq.Length == TableSize && |starts| >= NumScales
    modifies freq
    ensures forall s :: 0 <= s < NumScales ==> Ladder(freq[..], Base(s), starts[s], pow(2.0, 1.0 / 12.0))
  {
    StartsLadders(freq, starts, pow(2.0, 1.0 / 12.0));
  }
}
