/** The shape every scale table shares (11 sub-scales of 21 notes, stored flat,
    row-major) and the arithmetic facts the generators rely on. */
module Table {

  /** Notes per sub-scale (NUM_FREQS). */
  const NumFreqs: nat := 21
  /** Sub-scales per table (NUM_SCALES). */
  const NumScales: nat := 11
  /** Length of the flat frequency and note-name arrays. */
  const TableSize: nat := NumScales * NumFreqs

  /** The C library's `pow(base, exponent)`. Its numeric content is not
      modelled: every generator that calls it receives it as a parameter. */
  type Pow = (real, real) -> real

  /** Flat position of the first note of sub-scale `s`. */
  function Base(s: nat): nat
  {
    // The literal is NumFreqs: a product with a named constant would make
    // every index computation non-linear for the solver.
    s * 21
  }

  /** `k` lies in the 21-slot block that starts at `base`. */
  predicate InBlock(k: int, base: nat)
  {
    base <= k < base + NumFreqs
  }

  /** Natural power of a real, used to state closed forms. */
  function IPow(x: real, k: nat): real
  {
    if k == 0 then 1.0 else IPow(x, k - 1) * x
  }

  lemma {:induction false} IPowAdd(x: real, a: nat, b: nat)
    ensures IPow(x, a + b) == IPow(x, a) * IPow(x, b)
  {
    if b > 0 {
      var c := b - 1;
      IPowAdd(x, a, c);
      IPowSucc(x, a + c);
      IPowSucc(x, c);
      MulAssoc(IPow(x, a), IPow(x, c), x);
    }
  }

  lemma IPowSucc(x: real, k: nat)
    ensures IPow(x, k + 1) == IPow(x, k) * x
  {
  }

  lemma MulAssoc(p: real, q: real, r: real)
    ensures (p * q) * r == p * (q * r)
  {
  }

  lemma {:induction false} MulAtLeast(a: int, n: int)
    requires a >= 1 && n > 0
    ensures a * n >= n
  {
    if a > 1 {
      MulAtLeast(a - 1, n);
      assert a * n == (a - 1) * n + n;
    }
  }

  /** Euclidean division by a positive divisor has a unique quotient and remainder. */
  lemma DivModUnique(i: int, n: int, q: int, r: int)
    requires 0 < n && 0 <= r < n && i == q * n + r
    ensures i / n == q && i % n == r
  {
    var q', r' := i / n, i % n;
    assert i == q' * n + r';
    if q' > q {
      MulAtLeast(q' - q, n);
      assert false;
    } else if q' < q {
      MulAtLeast(q - q', n);
      assert false;
    }
  }

  /** Stepping back one whole tile of length n lowers the quotient by one and keeps the remainder. */
  lemma DivModStep(i: int, n: int)
    requires 0 < n <= i
    ensures (i - n) / n == i / n - 1 && (i - n) % n == i % n
  {
    var q, r := (i - n) / n, (i - n) % n;
    assert i == (q + 1) * n + r;
    DivModUnique(i, n, q + 1, r);
  }

  /** Note i of a block the running product builds from `first` by `step`. */
  function LadderValue(first: real, step: real, i: nat): real
  {
    if i == 0 then first else LadderValue(first, step, i - 1) * step
  }

  /** Block `[base, base + 21)` of f is the running product of the equal-step
      generators, from `first` by `step`. */
  ghost predicate Ladder(f: seq<real>, base: nat, first: real, step: real)
    requires base + NumFreqs <= |f|
  {
    forall k :: InBlock(k, base) ==> f[k] == LadderValue(first, step, k - base)
  }

  /** A ladder block starts at `first` and each later note is the previous
      note times `step`. */
  lemma LadderSteps(f: seq<real>, base: nat, first: real, step: real, k: int)
    requires base + NumFreqs <= |f| && Ladder(f, base, first, step)
    requires base < k < base + NumFreqs
    ensures f[base] == first
    ensures f[k] == f[k - 1] * step
  {
    assert f[base] == LadderValue(first, step, 0);
    assert f[k - 1] == LadderValue(first, step, k - 1 - base);
  }

  /** A ladder block is geometric: note i is `first * step^i`. */
  lemma {:induction false} LadderClosedForm(first: real, step: real, i: nat)
    ensures LadderValue(first, step, i) == first * IPow(step, i)
  {
    if i > 0 {
      LadderClosedForm(first, step, i - 1);
      IPowSucc(step, i - 1);
      MulAssoc(first, IPow(step, i - 1), step);
    }
  }
}
