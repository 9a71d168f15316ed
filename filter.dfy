/** The frequency-ceiling policy of `filter::generateCoeffs` and the two
    coefficient calculators (maxq_filter, bpre_filter) in src/build.cpp.

    A filter object holds a ceiling `frequencyCut` (20 kHz), a switch
    `frequencyCutEnabled` (on) and `lastValid`, the last frequency it
    accepted at or below the ceiling, -1.0 while there is none. A request
    above the ceiling is answered with the coefficients of `lastValid`, or
    of the ceiling itself when no frequency has been accepted yet. */
module Filters {

  const PI: real := 3.141592653589793238463
  /** The "no frequency accepted yet" value of `lastValid`. */
  const NoneYet: real := -1.0
  /** Default ceiling in Hz. */
  const DefaultCut: real := 20000.0

  // ---------------------------------------------------------------- the policy on values

  /** The three fields of a filter object. */
  datatype CutState = CutState(cut: real, enabled: bool, lastValid: real)

  /** State of a freshly constructed filter. */
  const Initial: CutState := CutState(DefaultCut, true, NoneYet)

  /** What an over-ceiling request falls back to: `lastValid` if set, else the ceiling. */
  function Fallback(lastValid: real, cut: real): real
  {
    if lastValid != NoneYet then lastValid else cut
  }

  /** The frequency `generateCoeffs(f)` hands to `calculate`. */
  function Argument(st: CutState, f: real): (r: real)
    ensures !st.enabled || f <= st.cut ==> r == f
    ensures st.enabled && f > st.cut ==> r == (if st.lastValid != NoneYet then st.lastValid else st.cut)
    ensures st.enabled && Respects(st) ==> r <= st.cut
  {
    if st.enabled && f > st.cut then Fallback(st.lastValid, st.cut) else f
  }

  /** The state after `generateCoeffs(f)`: only an accepted in-range request
      updates `lastValid`. */
  function Next(st: CutState, f: real): (r: CutState)
    ensures r.cut == st.cut && r.enabled == st.enabled
    ensures r.lastValid == (if st.enabled && f <= st.cut then f else st.lastValid)
    ensures Respects(st) ==> Respects(r)
  {
    if st.enabled && f <= st.cut then st.(lastValid := f) else st
  }

  /** The state after a run of requests, issued first to last. */
  function After(st: CutState, fs: seq<real>): CutState
  {
    if fs == [] then st else Next(After(st, fs[..|fs| - 1]), fs[|fs| - 1])
  }

  /** The arguments `calculate` receives for a run of requests, in call order:
      one per request. */
  function Arguments(st: CutState, fs: seq<real>): (r: seq<real>)
    ensures |r| == |fs|
  {
    if fs == [] then []
    else Arguments(st, fs[..|fs| - 1]) + [Argument(After(st, fs[..|fs| - 1]), fs[|fs| - 1])]
  }

  /** The invariant of an enabled filter: `lastValid` is unset or within the ceiling. */
  predicate Respects(st: CutState)
  {
    st.lastValid == NoneYet || st.lastValid <= st.cut
  }

  /** Reference definition, read from the requests themselves: the last
      request at or below the ceiling, or `lastValid` if there is none. */
  function LastInRange(lastValid: real, cut: real, fs: seq<real>): real
  {
    if fs == [] then lastValid
    else if fs[|fs| - 1] <= cut then fs[|fs| - 1]
    else LastInRange(lastValid, cut, fs[..|fs| - 1])
  }

  /** The three branches of `generateCoeffs` for one request. */
  lemma GenerateCoeffsCases(st: CutState, f: real)
    ensures !st.enabled ==> Argument(st, f) == f && Next(st, f) == st
    ensures st.enabled && f <= st.cut ==> Argument(st, f) == f && Next(st, f) == st.(lastValid := f)
    ensures st.enabled && f > st.cut && st.lastValid != NoneYet ==>
      Argument(st, f) == st.lastValid && Next(st, f) == st
    ensures st.enabled && f > st.cut && st.lastValid == NoneYet ==>
      Argument(st, f) == st.cut && Next(st, f) == st
  {
  }

  /** The ceiling and the switch never change; only `lastValid` does. */
  lemma {:induction false} AfterKeepsSettings(st: CutState, fs: seq<real>)
    ensures After(st, fs).cut == st.cut && After(st, fs).enabled == st.enabled
  {
    if fs != [] {
      AfterKeepsSettings(st, fs[..|fs| - 1]);
    }
  }

  /** Every request preserves the invariant, so every run does. */
  lemma {:induction false} AfterRespects(st: CutState, fs: seq<real>)
    requires Respects(st)
    ensures Respects(After(st, fs))
  {
    if fs != [] {
      AfterRespects(st, fs[..|fs| - 1]);
      AfterKeepsSettings(st, fs[..|fs| - 1]);
    }
  }

  /** Running a concatenation is running its halves one after the other:
      a filter object carries its state from one table to the next. */
  lemma {:induction false} AfterConcat(st: CutState, a: seq<real>, b: seq<real>)
    ensures After(st, a + b) == After(After(st, a), b)
  {
    if b == [] {
      assert a + b == a;
    } else {
      var b' := b[..|b| - 1];
      assert (a + b)[..|a + b| - 1] == a + b';
      assert (a + b)[|a + b| - 1] == b[|b| - 1];
      AfterConcat(st, a, b');
    }
  }

  lemma {:induction false} ArgumentsConcat(st: CutState, a: seq<real>, b: seq<real>)
    ensures Arguments(st, a + b) == Arguments(st, a) + Arguments(After(st, a), b)
  {
    if b == [] {
      assert a + b == a;
    } else {
      var b' := b[..|b| - 1];
      assert (a + b)[..|a + b| - 1] == a + b';
      assert (a + b)[|a + b| - 1] == b[|b| - 1];
      ArgumentsConcat(st, a, b');
      AfterConcat(st, a, b');
    }
  }

  /** Running one more request appends one argument and steps the state. */
  lemma Snoc(st: CutState, fs: seq<real>, f: real)
    ensures After(st, fs + [f]) == Next(After(st, fs), f)
    ensures Arguments(st, fs + [f]) == Arguments(st, fs) + [Argument(After(st, fs), f)]
  {
    assert (fs + [f])[..|fs + [f]| - 1] == fs;
  }

  /** The i-th argument is the one computed from the state reached over the
      first i frequencies: the policy is strictly left to right. */
  lemma {:induction false} ArgumentAt(st: CutState, fs: seq<real>, i: nat)
    requires i < |fs|
    ensures Arguments(st, fs)[i] == Argument(After(st, fs[..i]), fs[i])
  {
    var init := fs[..|fs| - 1];
    if i < |fs| - 1 {
      ArgumentAt(st, init, i);
      assert init[..i] == fs[..i];
    } else {
      assert init == fs[..i];
    }
  }

  /** With the ceiling off, every request is passed through and the state
      never changes. */
  lemma {:induction false} PassThroughWhenDisabled(st: CutState, fs: seq<real>)
    requires !st.enabled
    ensures Arguments(st, fs) == fs
    ensures After(st, fs) == st
  {
    if fs != [] {
      var fs' := fs[..|fs| - 1];
      PassThroughWhenDisabled(st, fs');
      assert fs == fs' + [fs[|fs| - 1]];
    }
  }

  /** While the ceiling is on, no argument ever exceeds it. */
  lemma {:induction false} ArgumentsBelowCeiling(st: CutState, fs: seq<real>)
    requires st.enabled && Respects(st)
    ensures forall i :: 0 <= i < |fs| ==> Arguments(st, fs)[i] <= st.cut
  {
    if fs != [] {
      var fs' := fs[..|fs| - 1];
      ArgumentsBelowCeiling(st, fs');
      AfterRespects(st, fs');
      AfterKeepsSettings(st, fs');
    }
  }

  /** `lastValid` after a run, with the ceiling on, is the last in-range
      request of the run, or the old `lastValid` if the run had none. */
  lemma {:induction false} AfterIsLastInRange(st: CutState, fs: seq<real>)
    requires st.enabled
    ensures After(st, fs).lastValid == LastInRange(st.lastValid, st.cut, fs)
  {
    if fs != [] {
      AfterIsLastInRange(st, fs[..|fs| - 1]);
      AfterKeepsSettings(st, fs[..|fs| - 1]);
    }
  }

  /** Reference reading of every argument: request i is passed through when
      in range, and otherwise answered with the last in-range request before
      it (or the old `lastValid`, or the ceiling when neither exists). */
  lemma {:induction false} ArgumentsMatchReference(st: CutState, fs: seq<real>)
    requires st.enabled
    ensures forall i :: 0 <= i < |fs| ==>
      Arguments(st, fs)[i] == (if fs[i] <= st.cut then fs[i] else Fallback(LastInRange(st.lastValid, st.cut, fs[..i]), st.cut))
  {
    if fs != [] {
      var fs' := fs[..|fs| - 1];
      ArgumentsMatchReference(st, fs');
      AfterIsLastInRange(st, fs');
      AfterKeepsSettings(st, fs');
      forall i | 0 <= i < |fs'|
        ensures fs'[..i] == fs[..i]
      {
      }
    }
  }

  /** A fresh filter given 100, 25000, 19000, 30000 calculates at 100, 100
      (the over-ceiling request reuses the accepted 100), 19000 and 19000, and
      remembers 19000. */
  lemma CeilingExample()
    ensures Arguments(Initial, [100.0, 25000.0, 19000.0, 30000.0]) == [100.0, 100.0, 19000.0, 19000.0]
    ensures After(Initial, [100.0, 25000.0, 19000.0, 30000.0]).lastValid == 19000.0
  {
    var a1 := [100.0];
    var a2 := a1 + [25000.0];
    var a3 := a2 + [19000.0];
    var a4 := a3 + [30000.0];
    Snoc(Initial, [], 100.0);
    assert [] + [100.0] == a1;
    Snoc(Initial, a1, 25000.0);
    Snoc(Initial, a2, 19000.0);
    Snoc(Initial, a3, 30000.0);
    assert a4 == [100.0, 25000.0, 19000.0, 30000.0];
  }

  /** A fresh filter whose first request is over the ceiling calculates at
      the ceiling, and stays unset until a request is in range. */
  lemma CeilingFirstExample()
    ensures Arguments(Initial, [25000.0, 19000.0, 30000.0]) == [20000.0, 19000.0, 19000.0]
    ensures After(Initial, [25000.0]).lastValid == NoneYet
  {
    var a1 := [25000.0];
    var a2 := a1 + [19000.0];
    var a3 := a2 + [30000.0];
    Snoc(Initial, [], 25000.0);
    assert [] + [25000.0] == a1;
    assert After(Initial, a1) == Initial;
    assert Arguments(Initial, a1) == [20000.0];
    Snoc(Initial, a1, 19000.0);
    assert After(Initial, a2) == Initial.(lastValid := 19000.0);
    Snoc(Initial, a2, 30000.0);
    assert a3 == [25000.0, 19000.0, 30000.0];
  }

  // ---------------------------------------------------------------- the calculators

  /** The fidlib filter stage `bpre_filter::calculate` reads after
      `FFNEXT(fid_design(...))`: its coefficients and its response function. */
  datatype FidFilter = FidFilter(val: seq<real>, response: real -> real)

  /** `fid_design` for the spec "BpRe/Q/f" at a sample rate, followed by
      `FFNEXT`: given (Q, f, sample rate), the second stage. */
  type Designer = (int, real, int) -> FidFilter

  /** The two concrete filters and their settings. */
  datatype Kind =
    | MaxQ(sampleRate: int)
    | BPRe(qval: int, gainQ: real, sampleRate: int)

  /** The conditions under which `calculate` yields finite numbers: a
      positive sample rate and, for bpre, a designed stage with at least
      three coefficients whose response at the requested frequency is not 0. */
  ghost predicate Sound(kind: Kind, design: Designer)
  {
    match kind
    case MaxQ(sampleRate) => sampleRate > 0
    case BPRe(qval, _, sampleRate) =>
      && sampleRate > 0
      && (forall f :: |design(qval, f, sampleRate).val| >= 3)
      && (forall f :: design(qval, f, sampleRate).response(f / sampleRate as real) != 0.0)
  }

  /** `calibrateFrequency`: both calculators use the frequency unchanged. */
  function CalibrateFrequency(f: real): (r: real)
    ensures r == f
  {
    f
  }

  /** maxq_filter::calculate: a single coefficient, the requested frequency
      as an angle per sample, 2 pi f / sampleRate. */
  function MaxQCalculate(sampleRate: int, f: real): (r: seq<real>)
    requires sampleRate > 0
    ensures |r| == 1
    ensures r[0] * sampleRate as real == 2.0 * PI * f
  {
    [2.0 * PI * CalibrateFrequency(f) / sampleRate as real]
  }

  /** bpre_filter::calculate: the gain that brings the stage's response at
      f to `gainQ`, then the stage's coefficients 2 and 1. */
  function BPReCalculate(design: Designer, qval: int, gainQ: real, sampleRate: int, f: real): (r: seq<real>)
    requires sampleRate > 0
    requires |design(qval, f, sampleRate).val| >= 3
    requires design(qval, f, sampleRate).response(f / sampleRate as real) != 0.0
    ensures |r| == 3
    ensures r[0] * design(qval, f, sampleRate).response(f / sampleRate as real) == gainQ
    ensures r[1] == design(qval, f, sampleRate).val[2] && r[2] == design(qval, f, sampleRate).val[1]
  {
    var cf := CalibrateFrequency(f);
    var filt := design(qval, cf, sampleRate);
    var gainAdj := gainQ / filt.response(cf / sampleRate as real);
    [gainAdj, filt.val[2], filt.val[1]]
  }

  /** `calculate`, dispatched on the kind of filter. */
  function Calculate(kind: Kind, design: Designer, f: real): (r: seq<real>)
    requires Sound(kind, design)
    ensures |r| == (if kind.MaxQ? then 1 else 3)
  {
    match kind
    case MaxQ(sampleRate) => MaxQCalculate(sampleRate, f)
    case BPRe(qval, gainQ, sampleRate) => BPReCalculate(design, qval, gainQ, sampleRate, f)
  }

  // ---------------------------------------------------------------- the object

  /** A filter object: its kind and settings are fixed, its three policy
      fields are state. */
  class Filter {
    const kind: Kind
    const design: Designer
    var frequencyCut: real
    var frequencyCutEnabled: bool
    var lastValid: real

    function State(): CutState
      reads this
    {
      CutState(frequencyCut, frequencyCutEnabled, lastValid)
    }

    /** A filter as `main` creates it: ceiling 20 kHz, enabled, nothing accepted. */
    constructor (kind: Kind, design: Designer)
      requires Sound(kind, design)
      ensures this.kind == kind && this.design == design
      ensures State() == Initial
    {
      this.kind := kind;
      this.design := design;
      frequencyCut := DefaultCut;
      frequencyCutEnabled := true;
      lastValid := NoneYet;
    }

    /** filter::generateCoeffs: the coefficients of the argument the policy
      picks, and the policy's next state. */
    method GenerateCoeffs(frequency: real) returns (coeffs: seq<real>)
      requires Sound(kind, design)
      modifies this`lastValid
      ensures coeffs == Calculate(kind, design, Argument(old(State()), frequency))
      ensures State() == Next(old(State()), frequency)
    {
      if frequencyCutEnabled {
        if frequency > frequencyCut {
          if lastValid != NoneYet {
            coeffs := Calculate(kind, design, lastValid);
          } else {
            coeffs := Calculate(kind, design, frequencyCut);
          }
        } else {
          lastValid := frequency;
          coeffs := Calculate(kind, design, frequency);
        }
      } else {
        coeffs := Calculate(kind, design, frequency);
      }
    }
  }
}
