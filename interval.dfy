/** The interval-tiling expander (interval_generator in src/build.cpp): each
    sub-scale lists its first n notes as ratios of a start frequency, and the
    rest of its 21 notes repeat that list one repeat factor (octave, tritave)
    higher per tile, the last tile cut off at note 20. Names tile the same way,
    unscaled. */
module IntervalExpander {
  import opened Table

  /** The value the tiling loops give note i of a block whose interval list
      is `ratios` (n >= 1): `ratios[i] * start` for i < n, and the note n places
      earlier times `oct` after that. */
  ghost function TileValue(ratios: seq<real>, start: real, oct: real, i: nat): real
    requires 1 <= |ratios|
    decreases i
  {
    if i < |ratios| then ratios[i] * start else TileValue(ratios, start, oct, i - |ratios|) * oct
  }

  /** Block `[base, base + 21)` of `f` is the tiling of `ratios`. */
  ghost predicate Tiled(f: seq<real>, base: nat, ratios: seq<real>, start: real, oct: real)
    requires base + NumFreqs <= |f| && 1 <= |ratios|
  {
    forall k :: InBlock(k, base) ==> f[k] == TileValue(ratios, start, oct, k - base)
  }

  /** Block `[base, base + 21)` of `f` is that of `was`, each note times `oct`:
      what the tiling loop does when a sub-scale lists no interval at all. */
  ghost predicate Scaled(f: seq<real>, was: seq<real>, base: nat, oct: real)
    requires base + NumFreqs <= |f| && |was| == |f|
  {
    forall k :: InBlock(k, base) ==> f[k] == was[k] * oct
  }

  /** Block `[base, base + 21)` of `names` repeats `strs`: note i is `strs[i % n]`. */
  ghost predicate NamesTiled(names: seq<string>, base: nat, strs: seq<string>)
    requires base + NumFreqs <= |names| && 1 <= |strs|
  {
    forall k :: InBlock(k, base) ==> names[k] == strs[(k - base) % |strs|]
  }

  /** Closed form of the tiling: note i is interval `i % n` of the list,
      raised by `i / n` whole repeat factors. */
  lemma {:induction false} TileClosedForm(ratios: seq<real>, start: real, oct: real, i: nat)
    requires 1 <= |ratios|
    ensures TileValue(ratios, start, oct, i) == ratios[i % |ratios|] * start * IPow(oct, i / |ratios|)
  {
    var n := |ratios|;
    if i < n {
      DivModUnique(i, n, 0, i);
    } else {
      TileClosedForm(ratios, start, oct, i - n);
      DivModStep(i, n);
    }
  }

  /** In a tiled block the first n notes are the scaled intervals, and every
      later note is the note n places earlier times the repeat factor. */
  lemma TiledRecurrence(f: seq<real>, base: nat, ratios: seq<real>, start: real, oct: real, k: int)
    requires base + NumFreqs <= |f| && 1 <= |ratios|
    requires Tiled(f, base, ratios, start, oct) && InBlock(k, base)
    ensures k - base < |ratios| ==> f[k] == ratios[k - base] * start
    ensures k - base >= |ratios| ==> f[k] == f[k - |ratios|] * oct
  {
    if k - base >= |ratios| {
      assert InBlock(k - |ratios|, base);
    }
  }

  /** A tiled name block is periodic with period n, as the second copy loop makes it. */
  lemma NamesPeriodic(names: seq<string>, base: nat, strs: seq<string>, k: int)
    requires base + NumFreqs <= |names| && 1 <= |strs|
    requires NamesTiled(names, base, strs)
    requires InBlock(k, base) && k - base >= |strs|
    ensures names[k] == names[k - |strs|]
  {
    assert InBlock(k - |strs|, base);
    DivModStep(k - base, |strs|);
  }

  lemma ScaledFrame(f: seq<real>, g: seq<real>, was: seq<real>, was': seq<real>, base: nat, oct: real)
    requires base + NumFreqs <= |f| == |g| == |was| == |was'|
    requires Scaled(f, was, base, oct)
    requires forall k :: InBlock(k, base) ==> g[k] == f[k] && was'[k] == was[k]
    ensures Scaled(g, was', base, oct)
  {
  }

  /** One pass of the outer loop of generateFrequencies: fills the block of
      sub-scale `s` and nothing else. */
  method FillBlock(freq: array<real>, s: nat, ratios: seq<real>, start: real, oct: real)
    requires freq.Length == TableSize && s < NumScales && |ratios| <= NumFreqs
    modifies freq
    ensures forall k :: 0 <= k < TableSize && !InBlock(k, Base(s)) ==> freq[k] == old(freq[k])
    ensures |ratios| >= 1 ==> Tiled(freq[..], Base(s), ratios, start, oct)
    ensures |ratios| == 0 ==> Scaled(freq[..], old(freq[..]), Base(s), oct)
  {
    var base, n := Base(s), |ratios|;
    if n == 0 {
      // The copy loop with n = 0: each note is read and written in place.
      for i := 0 to NumFreqs
        invariant forall k :: 0 <= k < TableSize && !(base <= k < base + i) ==> freq[k] == old(freq[k])
        invariant forall k :: base <= k < base + i ==> freq[k] == old(freq[k]) * oct
      {
        freq[base + i] := freq[base + i - n] * oct;
      }
    } else {
      for noteIdx := 0 to n
        invariant forall k :: 0 <= k < TableSize && !(base <= k < base + noteIdx) ==> freq[k] == old(freq[k])
        invariant forall k :: base <= k < base + noteIdx ==> freq[k] == TileValue(ratios, start, oct, k - base)
      {
        freq[base + noteIdx] := ratios[noteIdx] * start;
      }
      for i := n to NumFreqs
        invariant forall k :: 0 <= k < TableSize && !(base <= k < base + i) ==> freq[k] == old(freq[k])
        invariant forall k :: base <= k < base + i ==> freq[k] == TileValue(ratios, start, oct, k - base)
      {
        assert freq[base + i - n] == TileValue(ratios, start, oct, i - n);
        freq[base + i] := freq[base + i - n] * oct;
      }
    }
  }

  /** interval_generator::generateFrequencies: every sub-scale with a non-empty
      interval list is tiled from its own list, start frequency and repeat
      factor; a sub-scale with an empty list has its block multiplied by its
      repeat factor in place. `starts` and `octaves` may be longer than 11
      (only the first 11 entries are read). */
  method GenerateFrequencies(freq: array<real>, intervals: seq<seq<real>>, starts: seq<real>, octaves: seq<real>)
    requires freq.Length == TableSize
    requires |intervals| == NumScales && |starts| >= NumScales && |octaves| >= NumScales
    requires forall s :: 0 <= s < NumScales ==> |intervals[s]| <= NumFreqs
    modifies freq
    ensures forall s :: 0 <= s < NumScales && |intervals[s]| >= 1 ==>
      Tiled(freq[..], Base(s), intervals[s], starts[s], octaves[s])
    ensures forall s :: 0 <= s < NumScales && |intervals[s]| == 0 ==>
      Scaled(freq[..], old(freq[..]), Base(s), octaves[s])
  {
    var scaleIdx := 0;
    while scaleIdx < NumScales
      invariant 0 <= scaleIdx <= NumScales
      invariant forall k :: Base(scaleIdx) <= k < TableSize ==> freq[k] == old(freq[k])
      invariant forall s :: 0 <= s < scaleIdx && |intervals[s]| >= 1 ==>
        Tiled(freq[..], Base(s), intervals[s], starts[s], octaves[s])
      invariant forall s :: 0 <= s < scaleIdx && |intervals[s]| == 0 ==>
        Scaled(freq[..], old(freq[..]), Base(s), octaves[s])
    {
      ghost var before := freq[..];
      FillBlock(freq, scaleIdx, intervals[scaleIdx], starts[scaleIdx], octaves[scaleIdx]);
      if |intervals[scaleIdx]| == 0 {
        ScaledFrame(freq[..], freq[..], before, old(freq[..]), Base(scaleIdx), octaves[scaleIdx]);
      }
      forall s | 0 <= s < scaleIdx
        ensures |intervals[s]| >= 1 ==> Tiled(freq[..], Base(s), intervals[s], starts[s], octaves[s])
        ensures |intervals[s]| == 0 ==> Scaled(freq[..], old(freq[..]), Base(s), octaves[s])
      {
        assert Base(s) + NumFreqs <= Base(scaleIdx);
        if |intervals[s]| == 0 {
          ScaledFrame(before, freq[..], old(freq[..]), old(freq[..]), Base(s), octaves[s]);
        }
      }
      scaleIdx := scaleIdx + 1;
    }
  }

  /** One pass of the outer loop of generateNames: fills the names of
      sub-scale `s` and nothing else; an empty list leaves the block as it was. */
  method FillNames(notename: array<string>, s: nat, strs: seq<string>)
    requires notename.Length == TableSize && s < NumScales && |strs| <= NumFreqs
    modifies notename
    ensures forall k :: 0 <= k < TableSize && !InBlock(k, Base(s)) ==> notename[k] == old(notename[k])
    ensures |strs| >= 1 ==> NamesTiled(notename[..], Base(s), strs)
    ensures |strs| == 0 ==> notename[..] == old(notename[..])
  {
    var base, n := Base(s), |strs|;
    var noteIdx := 0;
    while noteIdx < n
      invariant 0 <= noteIdx <= n
      invariant forall k :: 0 <= k < TableSize && !(base <= k < base + noteIdx) ==> notename[k] == old(notename[k])
      invariant forall k :: base <= k < base + noteIdx ==> notename[k] == strs[(k - base) % n]
    {
      DivModUnique(noteIdx, n, 0, noteIdx);
      notename[base + noteIdx] := strs[noteIdx];
      noteIdx := noteIdx + 1;
    }
    var i := n;
    while i < NumFreqs
      invariant n <= i <= NumFreqs
      invariant forall k :: 0 <= k < TableSize && !(base <= k < base + i) ==> notename[k] == old(notename[k])
      invariant n == 0 ==> forall k :: 0 <= k < TableSize ==> notename[k] == old(notename[k])
      invariant n >= 1 ==> forall k :: base <= k < base + i ==> notename[k] == strs[(k - base) % n]
    {
      if n >= 1 {
        DivModStep(i, n);
      }
      notename[base + i] := notename[base + i - n];
      i := i + 1;
    }
  }

  /** interval_generator::generateNames: every sub-scale with a non-empty name
      list repeats that list through its 21 notes; sub-scales with an empty
      list keep the names they had. */
  method GenerateNames(notename: array<string>, names: seq<seq<string>>)
    requires notename.Length == TableSize && |names| == NumScales
    requires forall s :: 0 <= s < NumScales ==> |names[s]| <= NumFreqs
    modifies notename
    ensures forall s :: 0 <= s < NumScales && |names[s]| >= 1 ==> NamesTiled(notename[..], Base(s), names[s])
    ensures forall s, k :: 0 <= s < NumScales && |names[s]| == 0 && InBlock(k, Base(s)) ==> notename[k] == old(notename[k])
  {
    var scaleIdx := 0;
    while scaleIdx < NumScales
      invariant 0 <= scaleIdx <= NumScales
      invariant forall k :: Base(scaleIdx) <= k < TableSize ==> notename[k] == old(notename[k])
      invariant forall s :: 0 <= s < scaleIdx && |names[s]| >= 1 ==> NamesTiled(notename[..], Base(s), names[s])
      invariant forall s, k :: 0 <= s < scaleIdx && |names[s]| == 0 && InBlock(k, Base(s)) ==> notename[k] == old(notename[k])
    {
      FillNames(notename, scaleIdx, names[scaleIdx]);
      forall s | 0 <= s < scaleIdx
        ensures forall k :: InBlock(k, Base(s)) ==> !InBlock(k, Base(scaleIdx))
      {
      }
      scaleIdx := scaleIdx + 1;
    }
  }
}
