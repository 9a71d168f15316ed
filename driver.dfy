/** The call order of the coefficient output (procCoeff, procFilter and the
    generator loop of main in src/build.cpp): which frequency reaches which
    filter object, when. The printing itself is not modelled; each printed
    coefficient line becomes a `Row`. */
module Driver {
  import opened Table
  import opened Filters

  /** One coefficient line: the table position it is for, the coefficients,
      and whether it is the last line (printed without a trailing comma). */
  datatype Row = Row(index: nat, coeffs: seq<real>, isLast: bool)

  /** procCoeff: one `generateCoeffs` call on table position `idx`. */
  method ProcCoeff(freq: seq<real>, filt: Filter, idx: nat, isLast: bool) returns (row: Row)
    requires idx < |freq| && Sound(filt.kind, filt.design)
    modifies filt
    ensures row == Row(idx, Calculate(filt.kind, filt.design, Argument(old(filt.State()), freq[idx])), isLast)
    ensures filt.State() == Next(old(filt.State()), freq[idx])
  {
    var coeffs := filt.GenerateCoeffs(freq[idx]);
    row := Row(idx, coeffs, isLast);
  }

  /** The line a filter starting in state `st` prints for position i of
      `freq`, whether or not it is the last one. */
  ghost function LineAt(kind: Kind, design: Designer, st: CutState, freq: seq<real>, i: nat, isLast: bool): Row
    requires Sound(kind, design) && i < |freq|
  {
    Row(i, Calculate(kind, design, Arguments(st, freq)[i]), isLast)
  }

  /** The lines a filter starting in state `st` prints for table `freq`:
      line i is for position i, computed from the i-th argument of the
      policy, and only the line for the last position is marked last. */
  ghost function ExpectedRows(kind: Kind, design: Designer, st: CutState, freq: seq<real>): seq<Row>
    requires Sound(kind, design)
  {
    seq(|freq|, i requires 0 <= i < |freq| => LineAt(kind, design, st, freq, i, i == |freq| - 1))
  }

  /** One step of procFilter: the line procCoeff prints for position i from
      the state reached over the first i positions is the i-th line, and the
      state moves on over one more position. */
  lemma ProcStep(kind: Kind, design: Designer, st: CutState, freq: seq<real>, i: nat, isLast: bool)
    requires Sound(kind, design) && i < |freq|
    ensures Row(i, Calculate(kind, design, Argument(After(st, freq[..i]), freq[i])), isLast)
      == LineAt(kind, design, st, freq, i, isLast)
    ensures After(st, freq[..i + 1]) == Next(After(st, freq[..i]), freq[i])
  {
    ArgumentAt(st, freq, i);
    Snoc(st, freq[..i], freq[i]);
    assert freq[..i + 1] == freq[..i] + [freq[i]];
  }

  /** procFilter: positions 0 .. 229 in order, then 230 as the last line.
      The filter sees the whole table once, front to back. */
  method ProcFilter(freq: seq<real>, filt: Filter) returns (rows: seq<Row>)
    requires |freq| == TableSize && Sound(filt.kind, filt.design)
    modifies filt
    ensures rows == ExpectedRows(filt.kind, filt.design, old(filt.State()), freq)
    ensures filt.State() == After(old(filt.State()), freq)
  {
    ghost var st0 := filt.State();
    rows := [];
    for idx := 0 to TableSize - 1
      invariant filt.State() == After(st0, freq[..idx])
      invariant |rows| == idx
      invariant forall i :: 0 <= i < idx ==> rows[i] == LineAt(filt.kind, filt.design, st0, freq, i, false)
    {
      ProcStep(filt.kind, filt.design, st0, freq, idx, false);
      var row := ProcCoeff(freq, filt, idx, false);
      rows := rows + [row];
    }
    ProcStep(filt.kind, filt.design, st0, freq, TableSize - 1, true);
    var row := ProcCoeff(freq, filt, TableSize - 1, true);
    assert freq[..TableSize] == freq;
    rows := rows + [row];
    assert rows == ExpectedRows(filt.kind, filt.design, st0, freq);
  }

  /** Kinds and settings of the six filter objects of main, in output order
      (an assignment of 2.0 or 800.0 to the int field Qval stores 2 or 800). */
  const MainKinds: seq<Kind> := [
    MaxQ(48000), MaxQ(96000),
    BPRe(2, 2.0, 48000), BPRe(2, 2.0, 96000),
    BPRe(800, 40.0, 48000), BPRe(800, 40.0, 96000)
  ]

  /** No object appears twice. */
  predicate Distinct(filters: seq<Filter>)
  {
    forall i, j :: 0 <= i < j < |filters| ==> filters[i] != filters[j]
  }

  /** The six filter objects of main, each fresh and in its initial state. */
  method MakeFilters(design: Designer) returns (filters: seq<Filter>)
    requires forall j :: 0 <= j < |MainKinds| ==> Sound(MainKinds[j], design)
    ensures |filters| == |MainKinds| && Distinct(filters)
    ensures forall j :: 0 <= j < |filters| ==>
      fresh(filters[j]) && filters[j].kind == MainKinds[j] && filters[j].design == design && filters[j].State() == Initial
  {
    filters := [];
    for j := 0 to |MainKinds|
      invariant |filters| == j && Distinct(filters)
      invariant forall i :: 0 <= i < j ==>
        fresh(filters[i]) && filters[i].kind == MainKinds[i] && filters[i].design == design && filters[i].State() == Initial
    {
      var f := new Filter(MainKinds[j], design);
      filters := filters + [f];
    }
  }

  /** The six procFilter calls of one scale: each filter, in order, sees the
      whole table once, starting from the state it had before. */
  method ProcessScale(freq: seq<real>, filters: seq<Filter>) returns (out: seq<seq<Row>>)
    requires |freq| == TableSize && Distinct(filters)
    requires forall j :: 0 <= j < |filters| ==> Sound(filters[j].kind, filters[j].design)
    modifies set j | 0 <= j < |filters| :: filters[j]
    ensures |out| == |filters|
    ensures forall j :: 0 <= j < |filters| ==>
      out[j] == ExpectedRows(filters[j].kind, filters[j].design, old(filters[j].State()), freq)
    ensures forall j :: 0 <= j < |filters| ==> filters[j].State() == After(old(filters[j].State()), freq)
  {
    out := [];
    for idx := 0 to |filters|
      invariant |out| == idx
      invariant forall j :: 0 <= j < idx ==>
        out[j] == ExpectedRows(filters[j].kind, filters[j].design, old(filters[j].State()), freq)
      invariant forall j :: 0 <= j < idx ==> filters[j].State() == After(old(filters[j].State()), freq)
      invariant forall j :: idx <= j < |filters| ==> filters[j].State() == old(filters[j].State())
    {
      var rows := ProcFilter(freq, filters[idx]);
      out := out + [rows];
    }
  }

  /** All tables of a run, one after the other. */
  function Flatten(tables: seq<seq<real>>): seq<real>
  {
    if tables == [] then [] else Flatten(tables[..|tables| - 1]) + tables[|tables| - 1]
  }

  lemma FlattenSnoc(tables: seq<seq<real>>, t: seq<real>)
    ensures Flatten(tables + [t]) == Flatten(tables) + t
  {
    assert (tables + [t])[..|tables + [t]| - 1] == tables;
  }

  /** A table of the model's shape. */
  predicate IsTable(freq: seq<real>)
  {
    |freq| == TableSize
  }

  /** The state a filter starting in `st` has after the first k tables,
      one table at a time. */
  ghost function Carried(st: CutState, tables: seq<seq<real>>, k: nat): CutState
    requires k <= |tables|
  {
    if k == 0 then st else After(Carried(st, tables, k - 1), tables[k - 1])
  }

  /** Going through the tables one by one is going through their
      concatenation. */
  lemma {:induction false} CarriedIsFlatten(st: CutState, tables: seq<seq<real>>, k: nat)
    requires k <= |tables|
    ensures Carried(st, tables, k) == After(st, Flatten(tables[..k]))
  {
    if k > 0 {
      CarriedIsFlatten(st, tables, k - 1);
      assert tables[..k] == tables[..k - 1] + [tables[k - 1]];
      FlattenSnoc(tables[..k - 1], tables[k - 1]);
      AfterConcat(st, Flatten(tables[..k - 1]), tables[k - 1]);
    } else {
      assert tables[..k] == [];
    }
  }

  /** The generator loop of main: every scale goes through the same six filter
      objects. The lines of scale k are computed from the state each filter
      reached over all earlier scales, so `lastValid` carries from one scale
      into the next, and at the end every filter has seen every table in
      order. */
  method ProcessScales(tables: seq<seq<real>>, filters: seq<Filter>) returns (out: seq<seq<seq<Row>>>)
    requires forall k :: 0 <= k < |tables| ==> IsTable(tables[k])
    requires Distinct(filters)
    requires forall j :: 0 <= j < |filters| ==> Sound(filters[j].kind, filters[j].design)
    modifies set j | 0 <= j < |filters| :: filters[j]
    ensures |out| == |tables|
    ensures forall k :: 0 <= k < |tables| ==> |out[k]| == |filters|
    ensures forall k, j :: 0 <= k < |tables| && 0 <= j < |filters| ==>
      out[k][j] == ExpectedRows(filters[j].kind, filters[j].design, Carried(old(filters[j].State()), tables, k), tables[k])
    ensures forall j :: 0 <= j < |filters| ==> filters[j].State() == Carried(old(filters[j].State()), tables, |tables|)
  {
    out := [];
    for k := 0 to |tables|
      invariant |out| == k
      invariant forall k' :: 0 <= k' < k ==> |out[k']| == |filters|
      invariant forall k', j :: 0 <= k' < k && 0 <= j < |filters| ==>
        out[k'][j] == ExpectedRows(filters[j].kind, filters[j].design, Carried(old(filters[j].State()), tables, k'), tables[k'])
      invariant forall j :: 0 <= j < |filters| ==> filters[j].State() == Carried(old(filters[j].State()), tables, k)
    {
      assert IsTable(tables[k]);
      var rows := ProcessScale(tables[k], filters);
      ghost var outBefore := out;
      out := out + [rows];
      forall k', j | 0 <= k' < k + 1 && 0 <= j < |filters|
        ensures out[k'][j] == ExpectedRows(filters[j].kind, filters[j].design, Carried(old(filters[j].State()), tables, k'), tables[k'])
      {
        if k' < k {
          assert out[k'] == outBefore[k'];
        } else {
          assert out[k'] == rows;
        }
      }
    }
  }

  /** At the end of the run every filter has seen all tables, in order, as
      one stream. */
  lemma ScalesAsOneStream(st: CutState, tables: seq<seq<real>>)
    ensures Carried(st, tables, |tables|) == After(st, Flatten(tables))
  {
    CarriedIsFlatten(st, tables, |tables|);
    assert tables[..|tables|] == tables;
  }
}
