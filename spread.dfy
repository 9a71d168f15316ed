/** The pair-spread expander (wcspread_generator in src/build.cpp): every
    sub-scale starts at one start frequency and climbs by two alternating step
    sizes, `first` and `second` steps of a fixed number of cents. */
module PairSpread {
  import opened Table
  import opened Decimal

  /** The two members of the generator family that differ in `cents()`. */
  datatype Variant = WcSpread | GammaSpread

  /** `cents()`: 78 cents by default, 35.099 in the gamma override. */
  function Cents(v: Variant): (r: real)
    ensures r > 0.0
    ensures v == GammaSpread <==> r < 78.0
  {
    match v
    case WcSpread => 78.0
    case GammaSpread => 35.099
  }

  /** `pow(2.0, cents * steps / 1200.0)`: the frequency factor of `steps` steps. */
  function StepFactor(pow: Pow, cents: real, steps: int): real
  {
    pow(2.0, cents * steps as real / 1200.0)
  }

  /** Value the stride-2 loop gives note i of a block: the start, then up by
      `up1` to every odd note and by `up2` to every even note after it. */
  ghost function SpreadValue(start: real, up1: real, up2: real, i: nat): real
  {
    if i == 0 then start
    else SpreadValue(start, up1, up2, i - 1) * (if i % 2 == 1 then up1 else up2)
  }

  /** Block `[base, base + 21)` of `f` is spread from `start` by `up1`, `up2`. */
  ghost predicate Spread(f: seq<real>, base: nat, start: real, up1: real, up2: real)
    requires base + NumFreqs <= |f|
  {
    forall k :: InBlock(k, base) ==> f[k] == SpreadValue(start, up1, up2, k - base)
  }

  /** The shape the stride-2 loop promises: the block starts at `start`, and
      for each odd k in 1..19 note k is note k-1 times `up1` and note k+1 is
      note k times `up2`. */
  lemma SpreadSteps(f: seq<real>, base: nat, start: real, up1: real, up2: real, k: nat)
    requires base + NumFreqs <= |f| && Spread(f, base, start, up1, up2)
    requires k % 2 == 1 && k < NumFreqs
    ensures f[base] == start
    ensures f[base + k] == f[base + k - 1] * up1
    ensures f[base + k + 1] == f[base + k] * up2
  {
    assert f[base] == SpreadValue(start, up1, up2, 0);
    assert f[base + k] == SpreadValue(start, up1, up2, k);
    assert f[base + k - 1] == SpreadValue(start, up1, up2, k - 1);
    assert f[base + k + 1] == SpreadValue(start, up1, up2, k + 1);
  }

  /** Closed form: note i has climbed `(i + 1) / 2` first steps and `i / 2` second steps. */
  lemma SpreadClosedForm(start: real, up1: real, up2: real, i: nat)
    ensures SpreadValue(start, up1, up2, i) == start * IPow(up1, (i + 1) / 2) * IPow(up2, i / 2)
  {
    var h := i / 2;
    if i % 2 == 0 {
      assert i == 2 * h && (i + 1) / 2 == h;
      SpreadEven(start, up1, up2, h);
    } else {
      assert i == 2 * h + 1 && (i + 1) / 2 == h + 1;
      SpreadOdd(start, up1, up2, h);
    }
  }

  /** Note 2h has taken h steps of each size. */
  lemma {:induction false} SpreadEven(start: real, up1: real, up2: real, h: nat)
    ensures SpreadValue(start, up1, up2, 2 * h) == start * IPow(up1, h) * IPow(up2, h)
    decreases h, 0
  {
    if h > 0 {
      var g := h - 1;
      SpreadOdd(start, up1, up2, g);
      var prev := SpreadValue(start, up1, up2, 2 * g + 1);
      assert 2 * h == (2 * g + 1) + 1;
      assert SpreadValue(start, up1, up2, 2 * h) == prev * up2;
      SecondStep(start, up1, up2, g, prev);
    }
  }

  /** Note 2h + 1 has taken one more first step than second steps. */
  lemma {:induction false} SpreadOdd(start: real, up1: real, up2: real, h: nat)
    ensures SpreadValue(start, up1, up2, 2 * h + 1) == start * IPow(up1, h + 1) * IPow(up2, h)
    decreases h, 1
  {
    SpreadEven(start, up1, up2, h);
    var prev := SpreadValue(start, up1, up2, 2 * h);
    assert SpreadValue(start, up1, up2, 2 * h + 1) == prev * up1;
    FirstStep(start, up1, up2, h, prev);
  }

  /** An odd note adds one first step to a note that has taken h of each. */
  lemma FirstStep(start: real, up1: real, up2: real, h: nat, prev: real)
    requires prev == start * IPow(up1, h) * IPow(up2, h)
    ensures prev * up1 == start * IPow(up1, h + 1) * IPow(up2, h)
  {
    ThreeFactors(start, IPow(up1, h), IPow(up2, h), up1);
  }

  /** An even note adds one second step to a note that is one first step ahead. */
  lemma SecondStep(start: real, up1: real, up2: real, h: nat, prev: real)
    requires prev == start * IPow(up1, h + 1) * IPow(up2, h)
    ensures prev * up2 == start * IPow(up1, h + 1) * IPow(up2, h + 1)
  {
  }

  lemma ThreeFactors(x: real, a: real, b: real, c: real)
    ensures (x * a * b) * c == x * (a * c) * b
  {
  }

  /** One pass of the outer loop of generateFrequencies: the block of
      sub-scale `s` and nothing else, never written past note 20. */
  method FillSpread(freq: array<real>, s: nat, start: real, cents: real, first: int, second: int, pow: Pow)
    requires freq.Length == TableSize && s < NumScales
    modifies freq
    ensures forall k :: 0 <= k < TableSize && !InBlock(k, Base(s)) ==> freq[k] == old(freq[k])
    ensures Spread(freq[..], Base(s), start, StepFactor(pow, cents, first), StepFactor(pow, cents, second))
  {
    var base := Base(s);
    ghost var up1, up2 := StepFactor(pow, cents, first), StepFactor(pow, cents, second);
    freq[base] := start;
    var noteIdx := 1;
    while noteIdx < NumFreqs
      invariant 1 <= noteIdx <= NumFreqs && noteIdx % 2 == 1
      invariant forall k :: 0 <= k < TableSize && !(base <= k < base + noteIdx) ==> freq[k] == old(freq[k])
      invariant forall k :: base <= k < base + noteIdx ==> freq[k] == SpreadValue(start, up1, up2, k - base)
    {
      freq[base + noteIdx] := freq[base + noteIdx - 1] * pow(2.0, cents * first as real / 1200.0);
      freq[base + noteIdx + 1] := freq[base + noteIdx] * pow(2.0, cents * second as real / 1200.0);
      noteIdx := noteIdx + 2;
    }
  }

  /** wcspread_generator::generateFrequencies: every sub-scale is spread from
      the one start frequency by its own pair of step counts. */
  method GenerateFrequencies(freq: array<real>, pairs: seq<(int, int)>, startFrequency: real, v: Variant, pow: Pow)
    requires freq.Length == TableSize && |pairs| == NumScales
    modifies freq
    ensures forall s :: 0 <= s < NumScales ==>
      Spread(freq[..], Base(s), startFrequency, StepFactor(pow, Cents(v), pairs[s].0), StepFactor(pow, Cents(v), pairs[s].1))
  {
    var scaleIdx := 0;
    while scaleIdx < NumScales
      invariant 0 <= scaleIdx <= NumScales
      invariant forall s :: 0 <= s < scaleIdx ==>
        Spread(freq[..], Base(s), startFrequency, StepFactor(pow, Cents(v), pairs[s].0), StepFactor(pow, Cents(v), pairs[s].1))
    {
      ghost var before := freq[..];
      FillSpread(freq, scaleIdx, startFrequency, Cents(v), pairs[scaleIdx].0, pairs[scaleIdx].1, pow);
      forall s | 0 <= s < scaleIdx
        ensures Spread(freq[..], Base(s), startFrequency, StepFactor(pow, Cents(v), pairs[s].0), StepFactor(pow, Cents(v), pairs[s].1))
      {
        assert Base(s) + NumFreqs <= Base(scaleIdx);
        assert forall k :: InBlock(k, Base(s)) ==> freq[k] == before[k];
      }
      scaleIdx := scaleIdx + 1;
    }
  }

  /** Name of a note reached by `steps` steps: "+" and the decimal count. */
  function StepName(steps: int): string
  {
    "+" + IntToString(steps)
  }

  /** A step name reads back as the number of steps taken to reach its note. */
  lemma StepNameReadsBack(steps: int)
    ensures |StepName(steps)| >= 2 && StepName(steps)[0] == '+'
    ensures ParseInt(StepName(steps)[1..]) == steps
  {
    IntSign(steps);
    IntRoundTrip(steps);
    assert StepName(steps)[1..] == IntToString(steps);
  }

  /** Block `[base, base + 21)` of `names` is "0", then alternately `odd` and `even`. */
  ghost predicate SpreadNamed(names: seq<string>, base: nat, odd: string, even: string)
    requires base + NumFreqs <= |names|
  {
    && names[base] == "0"
    && forall k :: base < k < base + NumFreqs ==> names[k] == if (k - base) % 2 == 1 then odd else even
  }

  /** Spread names of the first `upto` sub-scales survive writes past them. */
  lemma SpreadNamedFrame(names: seq<string>, names': seq<string>, odds: seq<string>, evens: seq<string>, upto: nat)
    requires |names| == |names'| == TableSize && upto <= |odds| == |evens| == NumScales
    requires forall s :: 0 <= s < upto ==> SpreadNamed(names, Base(s), odds[s], evens[s])
    requires forall k :: 0 <= k < Base(upto) ==> names'[k] == names[k]
    ensures forall s :: 0 <= s < upto ==> SpreadNamed(names', Base(s), odds[s], evens[s])
  {
    forall s | 0 <= s < upto
      ensures SpreadNamed(names', Base(s), odds[s], evens[s])
    {
      assert Base(s) + NumFreqs <= Base(upto);
    }
  }

  /** One pass of the outer loop of generateNames: the names of sub-scale `s`
      only, "0" and then alternately the two step names. */
  method FillSpreadNames(notename: array<string>, s: nat, odd: string, even: string)
    requires notename.Length == TableSize && s < NumScales
    modifies notename
    ensures forall k :: 0 <= k < TableSize && !InBlock(k, Base(s)) ==> notename[k] == old(notename[k])
    ensures SpreadNamed(notename[..], Base(s), odd, even)
  {
    var base := Base(s);
    notename[base] := "0";
    var noteIdx := 1;
    while noteIdx < NumFreqs
      invariant 1 <= noteIdx <= NumFreqs && noteIdx % 2 == 1
      invariant forall k :: 0 <= k < TableSize && !(base <= k < base + noteIdx) ==> notename[k] == old(notename[k])
      invariant notename[base] == "0"
      invariant forall k :: base < k < base + noteIdx ==> notename[k] == if (k - base) % 2 == 1 then odd else even
    {
      notename[base + noteIdx] := odd;
      notename[base + noteIdx + 1] := even;
      noteIdx := noteIdx + 2;
    }
  }

  /** wcspread_generator::generateNames: each sub-scale is named "0", then
      alternately "+first" and "+second" (std::to_string of the step counts). */
  method GenerateNames(notename: array<string>, pairs: seq<(int, int)>)
    requires notename.Length == TableSize && |pairs| == NumScales
    modifies notename
    ensures forall s :: 0 <= s < NumScales ==>
      SpreadNamed(notename[..], Base(s), StepName(pairs[s].0), StepName(pairs[s].1))
  {
    var odds, evens := StepNames(pairs);
    FillAllSpreadNames(notename, odds, evens);
  }

  /** The two step names of every sub-scale. */
  method StepNames(pairs: seq<(int, int)>) returns (odds: seq<string>, evens: seq<string>)
    ensures |odds| == |evens| == |pairs|
    ensures forall s :: 0 <= s < |pairs| ==> odds[s] == StepName(pairs[s].0) && evens[s] == StepName(pairs[s].1)
  {
    odds, evens := [], [];
    for s := 0 to |pairs|
      invariant |odds| == |evens| == s
      invariant forall t :: 0 <= t < s ==> odds[t] == StepName(pairs[t].0) && evens[t] == StepName(pairs[t].1)
    {
      odds, evens := odds + [StepName(pairs[s].0)], evens + [StepName(pairs[s].1)];
    }
  }

  /** The outer loop of generateNames over precomputed step names. */
  method FillAllSpreadNames(notename: array<string>, odds: seq<string>, evens: seq<string>)
    requires notename.Length == TableSize && |odds| == |evens| == NumScales
    modifies notename
    ensures forall s :: 0 <= s < NumScales ==> SpreadNamed(notename[..], Base(s), odds[s], evens[s])
  {
    var scaleIdx := 0;
    while scaleIdx < NumScales
      invariant 0 <= scaleIdx <= NumScales
      invariant forall s :: 0 <= s < scaleIdx ==> SpreadNamed(notename[..], Base(s), odds[s], evens[s])
    {
      ghost var before := notename[..];
      FillSpreadNames(notename, scaleIdx, odds[scaleIdx], evens[scaleIdx]);
      SpreadNamedFrame(before, notename[..], odds, evens, scaleIdx);
      scaleIdx := scaleIdx + 1;
    }
  }
}
