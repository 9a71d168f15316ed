# CoeffBuilder scale and filter-coefficient core, in Dafny

CoeffBuilder (src/build.cpp) writes the tuning tables of a resonator
module as C source. A tuning system is a *scale*: 11 sub-scales of 21
notes, stored flat in a 231-slot frequency array and a 231-slot note-name
array. Note n of sub-scale s sits at position `s * 21 + n`. For every scale
the program then passes the 231 frequencies, in order, through six filter
objects. Each filter object turns a frequency into one coefficient
(maxq) or three (bpre). A filter object also enforces a 20 kHz ceiling:
a request above the ceiling is answered with the last frequency it
accepted, or with the ceiling itself if it has accepted none yet. The
filter objects are shared by all scales, so that memory carries from one
scale into the next.

The model has seven modules:

- `Table` (table.dfy): the table shape (21, 11, 231), `pow` as a
  parameter, natural powers, and the division facts the index arithmetic
  needs. It also defines `Ladder`, the geometric run the equal-step
  generators build.
- `IntervalExpander` (interval.dfy): `interval_generator`. It fills each
  block from a list of ratios times a start frequency, then repeats that
  list one repeat factor higher per tile. Names tile the same way.
- `PairSpread` (spread.dfy): `wcspread_generator` and its gamma variant.
  Each block climbs by two alternating step sizes, written by a stride-2
  loop. Names are "0", "+a", "+b", and so on.
- `Decimal` (decimal.dfy): `std::to_string(int)` for those names, with its
  inverse.
- `DirectExpander` (direct.dfy): generators that fill the table without
  the two engines above.
  - Closed forms: `video`, `b296`, `shrutis`.
  - Running products: `gamma` (one chain across all blocks), `et17`,
    `diatoniceq`, `et_chromatic`.
- `Filters` (filter.dfy):
  - the ceiling policy of `filter::generateCoeffs`, first as functions on
    a `CutState` value threaded over a run of requests, then as the
    `Filter` class whose method updates `lastValid` in place;
  - the `maxq` and `bpre` calculators.
- `Driver` (driver.dfy): `procCoeff`, `procFilter`, the six filter objects
  of `main`, and `main`'s loop over scales. Each printed coefficient line
  is a `Row` value.

The table is an `array` updated in place, as in the source. Each outer-loop
pass of a generator is its own method. That method states that it writes
its own 21-slot block and nothing else. Doubles are modelled as `real`.
The C library `pow` is a function parameter about which nothing is assumed.
So the proofs are about structure: which earlier entry, which factor and
which argument. They are not about rounding.

## Model

| member | source | states |
|---|---|---|
| Table.LadderClosedForm | src/build.cpp:698-703 | note i of a geometric run is `first * step^i` |
| Table.LadderSteps | src/build.cpp:698-703 | a geometric block starts at its first note and each later note is the previous note times the step, the running product the equal-step loops compute |
| IntervalExpander.FillBlock | src/build.cpp:41-49 | one pass for sub-scale s writes only positions s*21..s*21+20; a non-empty list of n ratios gives the block `ratios[i]*start` for i < n, then the note n places earlier times the repeat factor, cut off at note 20; an empty list multiplies the block by the repeat factor in place |
| IntervalExpander.GenerateFrequencies | src/build.cpp:35-51 | every sub-scale is tiled from its own ratio list, start frequency and repeat factor (or scaled in place when its list is empty); only the first 11 starts and repeat factors are read |
| IntervalExpander.TileClosedForm | src/build.cpp:40-50 | note i of a tiled block is `ratios[i % n] * start * oct^(i / n)` |
| IntervalExpander.TiledRecurrence | src/build.cpp:41-49 | in a tiled block the first n notes are the scaled ratios and every later note is the note n places earlier times the repeat factor |
| IntervalExpander.FillNames | src/build.cpp:56-62 | one pass writes only the names of sub-scale s; note i gets `strs[i % n]`; an empty list leaves the whole name table unchanged |
| IntervalExpander.GenerateNames | src/build.cpp:53-64 | every sub-scale with names repeats its list through its 21 notes, unscaled; a sub-scale without names keeps the names it had |
| IntervalExpander.NamesPeriodic | src/build.cpp:60-62 | a tiled name block repeats with period n, as the copy loop builds it |
| PairSpread.Cents | src/build.cpp:69 | `cents()` is a positive step size; only the gamma override (line 626, 35.099) is below the default 78 |
| PairSpread.FillSpread | src/build.cpp:74-85 | the stride-2 pass for sub-scale s writes exactly positions s*21..s*21+20, and no slot outside that block; the block is the pair spread of the start frequency |
| PairSpread.GenerateFrequencies | src/build.cpp:71-87 | every sub-scale is spread from the one start frequency by its own pair of step counts, at the variant's cents per step |
| PairSpread.SpreadSteps | src/build.cpp:74-83 | the block starts at the start frequency; for odd k below 21, note k is note k-1 times `2^(cents*first/1200)` and note k+1 is note k times `2^(cents*second/1200)` |
| PairSpread.SpreadClosedForm | src/build.cpp:75-85 | note i of a spread block has climbed `(i+1)/2` first steps and `i/2` second steps from the start |
| PairSpread.StepNameReadsBack | src/build.cpp:94-95 | a step name is "+" followed by a decimal that reads back as the step count it was made from |
| PairSpread.StepNames | src/build.cpp:94-95 | the two names of sub-scale s are "+" and the decimal of its first, resp. second, step count |
| PairSpread.FillSpreadNames | src/build.cpp:90-96 | one pass writes only the names of sub-scale s: "0" at note 0, the first-step name at odd notes, the second-step name at even notes |
| PairSpread.FillAllSpreadNames | src/build.cpp:89-97 | every sub-scale gets its own pair of names, and a later pass does not disturb an earlier block |
| PairSpread.SpreadNamedFrame | src/build.cpp:89-97 | the names of finished sub-scales survive any change above their blocks |
| PairSpread.GenerateNames | src/build.cpp:89-98 | every sub-scale carries the spread names of its own pair |
| Decimal.NatDigits | src/build.cpp:94-95 | the decimal rendering of a natural number is a non-empty string of digits |
| Decimal.IntSign | src/build.cpp:94-95 | the rendering of an int starts with '-' exactly when the int is negative |
| Decimal.NatRoundTrip | src/build.cpp:94-95 | parsing the rendering of a natural number gives the number back |
| Decimal.IntRoundTrip | src/build.cpp:94-95 | parsing the rendering of an int gives the int back, so the names lose no step count |
| DirectExpander.FillVideoBlock | src/build.cpp:125-136 | one pass writes only sub-scale s's block, with the video value of each of its notes |
| DirectExpander.VideoFrequencies | src/build.cpp:124-137 | every position of the table holds the video value for its sub-scale and note |
| DirectExpander.VideoHarmonics | src/build.cpp:125-128 | in the first ten sub-scales, note n is n+1 times the sub-scale's first note, and that note is s+1 times 59.94 Hz |
| DirectExpander.VideoLastSubScale | src/build.cpp:129-135 | the last sub-scale counts up by 1 Hz from 15729 to 15739 (notes 0..10), jumps to 31474 at note 11 and counts up again |
| DirectExpander.FillBandsBlock | src/build.cpp:345-347 | one pass writes only sub-scale s's block, band n times the pass's raise |
| DirectExpander.B296Frequencies | src/build.cpp:343-348 | position s*21+n holds band n raised by `pow(2, s/24)` |
| DirectExpander.FillShrutiBlock | src/build.cpp:428-431 | one pass writes only sub-scale s's frequencies and names: ratio n on `start` times the pass's octave, and shruti name n |
| DirectExpander.ShrutisScale | src/build.cpp:427-432 | position s*21+n holds `start * ratio[n] * pow(2, s)` and the name of shruti n, the same names in every sub-scale |
| DirectExpander.FillLadder | src/build.cpp:698-703 | one pass writes only sub-scale s's block, as a geometric run from `first` by `step` |
| DirectExpander.GammaFrequencies | src/build.cpp:695-706 | every block climbs by `2^(35.099/1200)`; block 0 starts at 120 Hz and each later block starts on the previous block's last note |
| DirectExpander.GammaClosedForm | src/build.cpp:695-706 | the gamma table is one chain: note n of sub-scale s lies 20s+n steps above 120 Hz |
| DirectExpander.Et17Doubles | src/build.cpp:746 | consecutive 17-TET sub-scales start one octave apart |
| DirectExpander.Et17Frequencies | src/build.cpp:737-747 | block s starts at `13.75 * 2^s` and climbs by `pow(2, 1/17)` |
| DirectExpander.StartsLadders | src/build.cpp:981-989 | block s starts at `starts[s]` and climbs by the fixed step; only the first 11 starts are read |
| DirectExpander.DiatonicEqFrequencies | src/build.cpp:981-989 | block s starts at its start frequency and climbs in whole tones `pow(2, 2/12)` |
| DirectExpander.EtChromaticFrequencies | src/build.cpp:1052-1060 | block s starts at its start frequency and climbs in semitones `pow(2, 1/12)` |
| Filters.Argument | src/build.cpp:1496-1511 | the frequency handed to `calculate`: the request itself when the ceiling is off or the request is in range, else `lastValid` if set, else the ceiling; never above the ceiling while the invariant holds |
| Filters.Next | src/build.cpp:1496-1511 | only an in-range request on an enabled filter changes the state, and it changes only `lastValid`, to the request; the invariant is preserved |
| Filters.Arguments | src/build.cpp:1496-1511 | a run of requests passes exactly one argument to `calculate` per request |
| Filters.GenerateCoeffsCases | src/build.cpp:1496-1511 | disabled: the request passes through and nothing changes; in range: it passes through and becomes `lastValid`; over the ceiling: `lastValid` if set, else the ceiling, and the state is unchanged |
| Filters.AfterKeepsSettings | src/build.cpp:1488-1489 | no run of requests changes the ceiling or the switch |
| Filters.AfterRespects | src/build.cpp:1498-1506 | `lastValid` stays unset or at most the ceiling over any run of requests |
| Filters.AfterConcat | src/build.cpp:1490 | the state after two runs of requests is the state after the second run started from the state after the first |
| Filters.ArgumentsConcat | src/build.cpp:1496-1511 | the arguments of two runs of requests are those of the first run followed by those of the second run from the state the first left |
| Filters.ArgumentAt | src/build.cpp:1496-1511 | the argument for request i is the one the policy picks from the state reached over requests 0..i-1 |
| Filters.Snoc | src/build.cpp:1496-1511 | one more request appends one argument and steps the state once |
| Filters.PassThroughWhenDisabled | src/build.cpp:1508-1510 | with the ceiling off, every request reaches `calculate` unchanged and `lastValid` never changes |
| Filters.ArgumentsBelowCeiling | src/build.cpp:1497-1506 | with the ceiling on and the invariant holding, no argument passed to `calculate` exceeds the ceiling |
| Filters.AfterIsLastInRange | src/build.cpp:1504-1505 | with the ceiling on, `lastValid` after a run is the last request of the run at or below the ceiling, or the old value if the run had none |
| Filters.ArgumentsMatchReference | src/build.cpp:1492-1511 | with the ceiling on, request i is passed through when in range and otherwise answered with the last in-range request before it, else the old `lastValid`, else the ceiling |
| Filters.CeilingExample | src/build.cpp:1488-1507 | a fresh filter given 100, 25000, 19000, 30000 calculates at 100, 100, 19000, 19000 and keeps 19000 |
| Filters.CeilingFirstExample | src/build.cpp:1498-1502 | a fresh filter whose first request is 25000 calculates at the 20 kHz ceiling and stays unset |
| Filters.CalibrateFrequency | src/build.cpp:1531-1533 | `calibrateFrequency` of both calculators (also lines 1573-1575) returns the frequency unchanged |
| Filters.MaxQCalculate | src/build.cpp:1525-1529 | exactly one coefficient, the frequency as an angle per sample: coefficient times sample rate equals 2 pi f |
| Filters.BPReCalculate | src/build.cpp:1547-1571 | three coefficients: the gain that brings the designed stage's response at f/sampleRate up to `gain_q`, then the stage's coefficients 2 and 1 |
| Filters.Calculate | src/build.cpp:1513 | the virtual `calculate`: one coefficient for maxq, three for bpre |
| Filters.Filter.constructor | src/build.cpp:1488-1490 | a new filter has ceiling 20000, the ceiling on and `lastValid` unset (-1.0) |
| Filters.Filter.GenerateCoeffs | src/build.cpp:1496-1511 | returns `calculate` of the argument the policy picks for the request, and leaves the fields in the policy's next state; only `lastValid` may change |
| Driver.ProcCoeff | src/build.cpp:1579-1580 | one coefficient line for position idx, from one `generateCoeffs` call on `frequency[idx]` |
| Driver.ProcStep | src/build.cpp:1604-1606 | the line procCoeff prints for position i from the state reached over positions 0..i-1 is line i of the table, and the state steps once |
| Driver.ProcFilter | src/build.cpp:1601-1609 | 231 lines, line i for position i, only line 230 marked last, computed from the policy threaded over positions 0..230 in order; the filter ends in the state after the whole table |
| Driver.MakeFilters | src/build.cpp:1679-1709 | six distinct fresh filters: maxq at 48 and 96 kHz, bpre Q 2 gain 2 at 48 and 96 kHz, bpre Q 800 gain 40 at 48 and 96 kHz, all in the initial state |
| Driver.ProcessScale | src/build.cpp:1733-1738 | each of the filters sees the whole table once, from the state it had before, and no filter disturbs another |
| Driver.ProcessScales | src/build.cpp:1713-1742 | the lines of scale k are computed from the state each filter reached over scales 0..k-1, one after the other; at the end each filter is in the state after all scales |
| Driver.CarriedIsFlatten | src/build.cpp:1713-1742 | going through the first k tables one by one leaves a filter in the state it would reach over their concatenation |
| Driver.ScalesAsOneStream | src/build.cpp:1713-1742 | at the end of the run each filter is in the state after all tables as one stream of requests, so `lastValid` carries across scales |

## Left out

- PairSpread.GenerateNames: the two names of each sub-scale are built once,
  before the fill loops, instead of at every pass of the inner loop. The
  strings written are the same.
- Floating point. Doubles are reals and `pow` is an arbitrary function
  parameter. Rounding, and concrete values such as 65.40 Hz, are not
  modelled.
- PairSpread.GenerateFrequencies: the source takes the start frequency as
  `float` (src/build.cpp:71), which narrows the double passed in. The model
  keeps it as a real.
- The fidlib designer (`fid_design`, `FFNEXT`, `fid_response`) is a
  function parameter returning the designed stage.
  - The spec string handed to it, "BpRe/%d/%g", rounds the frequency to 6
    significant digits. The model gives the designer the frequency itself;
    any rounding is the designer's business.
  - `Filters.Sound` asks for at least three coefficients and a non-zero
    response. Without the first, the source reads past the coefficient
    array. At a zero response, the C++ division yields infinity, which
    reals cannot represent.
  - `MaxQCalculate` and `BPReCalculate` ask for a positive sample rate for
    the same reason. `main` only uses 48000 and 96000.
- IntervalExpander.FillBlock, IntervalExpander.GenerateFrequencies,
  IntervalExpander.FillNames and IntervalExpander.GenerateNames require each
  list to have at most 21 entries. The source does not check. A longer list
  would overwrite the next sub-scale's block, and for the last sub-scale it
  would write past the end of the 231-slot array.
  - The code never rejects a malformed table (an over-long list, name
    and ratio lists of different lengths, a non-positive factor) with an
    error, and neither does the model. The length requirement above only
    keeps out the out-of-bounds writes.
- All printing: `std::cout`, `setprecision`, the `#include` header, and the
  brace and comma layout of `procCoeff`. A printed coefficient line is a
  `Row`, and `Row.isLast` stands for the missing trailing comma.
- Filter and scale `name()` strings, class names, descriptions and
  sub-scale names. These are output labels built with library formatting.
- Per-tuning constant data is not reproduced: ratio lists, names, start
  frequencies and Buchla bands. The generators take these as parameters.
  The model does include the constants inside the loops: 59.94, 15729,
  31463, 120, 35.099, 13.75, and the 1/17, 2/12 and 1/12 steps, with the
  78 and 35.099 cents of the spread variants.
- The generators that only feed constant data to the interval or spread
  engine (bp, gamelan, mesopotamian, alpha spreads, indian, diatonic just,
  the JI and ET triad, interval, major and minor sets). Their loops are the
  two engines modelled above.
- The `generator` and `filter` class hierarchies and virtual dispatch.
  Generators are separate methods. The filter kinds are a datatype, and
  `Calculate` dispatches on it.
- Generators that write no names leave `notename` at its default
  (empty strings). The name arrays are parameters, so that default is not
  modelled.
- The sentinel is an ordinary frequency value. An in-range request of
  exactly -1.0 would store -1.0, which is then read as "nothing accepted
  yet". The model keeps this behaviour, because its `NoneYet` is the same
  -1.0. `main` never issues such a request.
