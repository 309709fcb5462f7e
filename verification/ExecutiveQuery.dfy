/** The drill-down of the executive query: one slice for each dimension value, refused unless the
    slices add up to the metric, and a slice that needs attention. */
module ExecutiveQuery {
  import opened Decimals
  import opened Wrappers

  type DimensionId = nat

  datatype Kind = Observation | Target
  /** A governed fact; its values are numbers of millionths. Facts without a dimension are totals.
      `assessed` tells that all of its quality and freshness columns are filled. */
  datatype Fact = Fact(kind: Kind, dimension: Option<DimensionId>, units: int, prior: Option<int>, assessed: bool)
  datatype DimensionValue = DimensionValue(id: DimensionId, name: string)

  datatype Slice = Slice(id: DimensionId, name: string, value: string, target: string, variance: string)

  /** NotFound is the service's refusal; Crash is an exception it does not raise on purpose. */
  datatype Response =
    | NotFound
    | Crash
    | Metric(value: string, prior: string, priorDelta: string, target: string, targetDelta: string,
             drillDown: seq<Slice>, attention: Slice)

  /** What the checks around the facts find: one attention rule that fits widget, dimension and
      comparator, and a selected source that is active and tested at its version. */
  datatype Surroundings = Surroundings(ruleFits: bool, sourceFits: bool)

  /** Fraction digits of a stored fact. */
  const SCALE := 6

  /** The first fact of a kind for a dimension value, or for the total. */
  function FirstFact(facts: seq<Fact>, kind: Kind, dimension: Option<DimensionId>): Option<Fact> {
    if facts == [] then None
    else if facts[0].kind == kind && facts[0].dimension == dimension then Some(facts[0])
    else FirstFact(facts[1..], kind, dimension)
  }

  /** The two facts of one dimension value. */
  datatype Cell = Cell(observed: int, target: int)

  function CellOf(facts: seq<Fact>, dimension: Option<DimensionId>): Option<Cell> {
    var observed, target := FirstFact(facts, Observation, dimension), FirstFact(facts, Target, dimension);
    if observed.None? || target.None? then None else Some(Cell(observed.value.units, target.value.units))
  }

  /** The totals: an assessed observation with a prior value, and a target. */
  datatype Total = Total(observed: int, prior: int, target: int)

  function TotalOf(facts: seq<Fact>): Option<Total> {
    var observed, target := FirstFact(facts, Observation, None), FirstFact(facts, Target, None);
    if observed.None? || target.None? || observed.value.prior.None? || !observed.value.assessed then None
    else Some(Total(observed.value.units, observed.value.prior.value, target.value.units))
  }

  predicate Complete(facts: seq<Fact>, dimensions: seq<DimensionValue>) {
    forall i | 0 <= i < |dimensions| :: CellOf(facts, Some(dimensions[i].id)).Some?
  }

  function Cells(facts: seq<Fact>, dimensions: seq<DimensionValue>): (cells: seq<Cell>)
    requires Complete(facts, dimensions)
    ensures |cells| == |dimensions|
    ensures forall i | 0 <= i < |cells| :: Some(cells[i]) == CellOf(facts, Some(dimensions[i].id))
  {
    seq(|dimensions|, i requires 0 <= i < |dimensions| => CellOf(facts, Some(dimensions[i].id)).value)
  }

  function Observed(cells: seq<Cell>): (ns: seq<int>)
    ensures |ns| == |cells| && forall i | 0 <= i < |ns| :: ns[i] == cells[i].observed
  {
    seq(|cells|, i requires 0 <= i < |cells| => cells[i].observed)
  }

  function Variances(cells: seq<Cell>): (ns: seq<int>)
    ensures |ns| == |cells| && forall i | 0 <= i < |ns| :: ns[i] == cells[i].observed - cells[i].target
  {
    seq(|cells|, i requires 0 <= i < |cells| => cells[i].observed - cells[i].target)
  }

  function SliceOf(d: DimensionValue, cell: Cell): Slice {
    Slice(d.id, d.name, Print(cell.observed, SCALE), Print(cell.target, SCALE),
          Print(cell.observed - cell.target, SCALE))
  }

  predicate AreSlices(slices: seq<Slice>, dimensions: seq<DimensionValue>, cells: seq<Cell>) {
    && |slices| == |dimensions| == |cells|
    && forall i | 0 <= i < |slices| :: slices[i] == SliceOf(dimensions[i], cells[i])
  }

  /** Position i holds the first of the smallest numbers. */
  predicate FirstSmallest(ns: seq<int>, i: nat) {
    && i < |ns|
    && (forall j | 0 <= j < |ns| :: ns[i] <= ns[j])
    && (forall j | 0 <= j < i :: ns[i] < ns[j])
  }

  function SliceValues(slices: seq<Slice>): (texts: seq<string>)
    ensures |texts| == |slices| && forall i | 0 <= i < |slices| :: texts[i] == slices[i].value
  {
    seq(|slices|, i requires 0 <= i < |slices| => slices[i].value)
  }

  function SliceVariances(slices: seq<Slice>): (texts: seq<string>)
    ensures |texts| == |slices| && forall i | 0 <= i < |slices| :: texts[i] == slices[i].variance
  {
    seq(|slices|, i requires 0 <= i < |slices| => slices[i].variance)
  }

  /** Everything is there, the slices add up to the total, and the attention rule fits. */
  predicate Answerable(facts: seq<Fact>, dimensions: seq<DimensionValue>, around: Surroundings) {
    && TotalOf(facts).Some?
    && Complete(facts, dimensions)
    && Sum(Observed(Cells(facts, dimensions))) == TotalOf(facts).value.observed
    && around.ruleFits
  }

  /** The answer to an answerable query. */
  ghost predicate IsAnswer(total: Total, dimensions: seq<DimensionValue>, cells: seq<Cell>, grouped: bool,
                           r: Response)
  {
    && r.Metric?
    && r.value == Print(total.observed, SCALE)
    && r.prior == Print(total.prior, SCALE) && r.priorDelta == Print(total.observed - total.prior, SCALE)
    && r.target == Print(total.target, SCALE) && r.targetDelta == Print(total.observed - total.target, SCALE)
    && (exists k: nat :: k < |dimensions| == |cells| && FirstSmallest(Variances(cells), k)
                        && r.attention == SliceOf(dimensions[k], cells[k]))
    && (if grouped then AreSlices(r.drillDown, dimensions, cells) else r.drillDown == [])
  }

  // ---------------------------------------------------------- the query

  /** A decimal text of the service as millionths. */
  function Millionths(text: string): int {
    if IsNumeral(text) && |Read(text).fraction| <= SCALE then Units(Read(text), SCALE) else 0
  }

  lemma MillionthsOfPrint(n: int)
    ensures Millionths(Print(n, SCALE)) == n
  {
    PrintRoundTrip(n, SCALE);
  }

  function AllMillionths(texts: seq<string>): (ns: seq<int>)
    ensures |ns| == |texts| && forall i | 0 <= i < |ns| :: ns[i] == Millionths(texts[i])
  {
    seq(|texts|, i requires 0 <= i < |texts| => Millionths(texts[i]))
  }

  lemma MillionthsOfAll(ns: seq<int>)
    ensures AllMillionths(PrintAll(ns, SCALE)) == ns
  {
    forall i | 0 <= i < |ns| ensures Millionths(PrintAll(ns, SCALE)[i]) == ns[i] {
      MillionthsOfPrint(ns[i]);
    }
  }

  method SumOf(ns: seq<int>) returns (sum: int)
    ensures sum == Sum(ns)
  {
    sum := 0;
    for i := 0 to |ns|
      invariant sum == Sum(ns[..i])
    {
      assert ns[..i + 1][..i] == ns[..i];
      sum := sum + ns[i];
    }
    assert ns[..|ns|] == ns;
  }

  /** min(..., key=...): the first position of the smallest number. */
  method Smallest(ns: seq<int>) returns (k: nat)
    requires ns != []
    ensures FirstSmallest(ns, k)
  {
    k := 0;
    for i := 1 to |ns|
      invariant k < i
      invariant forall j | 0 <= j < i :: ns[k] <= ns[j]
      invariant forall j | 0 <= j < k :: ns[k] < ns[j]
    {
      if ns[i] < ns[k] {
        k := i;
      }
    }
  }

  predicate IsSlice(facts: seq<Fact>, d: DimensionValue, slice: Slice) {
    var cell := CellOf(facts, Some(d.id));
    cell.Some? && slice == SliceOf(d, cell.value)
  }

  /** The slices of the first dimension values. */
  predicate Built(facts: seq<Fact>, dimensions: seq<DimensionValue>, slices: seq<Slice>) {
    && |slices| <= |dimensions|
    && forall i | 0 <= i < |slices| :: IsSlice(facts, dimensions[i], slices[i])
  }

  lemma OneMoreSlice(facts: seq<Fact>, dimensions: seq<DimensionValue>, slices: seq<Slice>, slice: Slice)
    requires Built(facts, dimensions, slices) && |slices| < |dimensions|
    requires IsSlice(facts, dimensions[|slices|], slice)
    ensures Built(facts, dimensions, slices + [slice])
  {
    var longer := slices + [slice];
    forall i | 0 <= i < |longer| ensures IsSlice(facts, dimensions[i], longer[i]) {
      if i < |slices| {
        assert longer[i] == slices[i] && IsSlice(facts, dimensions[i], slices[i]);
      } else {
        assert longer[i] == slice && i == |slices|;
      }
    }
  }

  lemma AllBuilt(facts: seq<Fact>, dimensions: seq<DimensionValue>, slices: seq<Slice>)
    requires Built(facts, dimensions, slices) && |slices| == |dimensions|
    ensures Complete(facts, dimensions) && AreSlices(slices, dimensions, Cells(facts, dimensions))
  {
    assert forall i | 0 <= i < |dimensions| :: IsSlice(facts, dimensions[i], slices[i]);
  }

  /** The loop over the dimension values; None when a fact is missing. */
  method DrillDown(facts: seq<Fact>, dimensions: seq<DimensionValue>) returns (slices: Option<seq<Slice>>)
    ensures slices.Some? <==> Complete(facts, dimensions)
    ensures slices.Some? ==> AreSlices(slices.value, dimensions, Cells(facts, dimensions))
  {
    var built: seq<Slice> := [];
    for i := 0 to |dimensions|
      invariant |built| == i && Built(facts, dimensions, built)
    {
      var cell := CellOf(facts, Some(dimensions[i].id));
      if cell.None? {
        return None;
      }
      var slice := SliceOf(dimensions[i], cell.value);
      OneMoreSlice(facts, dimensions, built, slice);
      built := built + [slice];
    }
    AllBuilt(facts, dimensions, built);
    return Some(built);
  }

  method Query(facts: seq<Fact>, dimensions: seq<DimensionValue>, around: Surroundings, grouped: bool)
    returns (r: Response)
    ensures r == Crash <==> Answerable(facts, dimensions, around) && dimensions == []
    ensures r.Metric? <==> Answerable(facts, dimensions, around) && dimensions != [] && around.sourceFits
    ensures r.Metric? ==> IsAnswer(TotalOf(facts).value, dimensions, Cells(facts, dimensions), grouped, r)
  {
    var total := TotalOf(facts);
    if total.None? {
      return NotFound;
    }
    var slices := DrillDown(facts, dimensions);
    if slices.None? {
      return NotFound;
    }
    ghost var cells := Cells(facts, dimensions);
    TextsOfSlices(slices.value, dimensions, cells);
    var sum := SumOf(AllMillionths(SliceValues(slices.value)));
    if sum != total.value.observed || !around.ruleFits {
      return NotFound;
    }
    if slices.value == [] {
      return Crash;
    }
    var k := Smallest(AllMillionths(SliceVariances(slices.value)));
    if !around.sourceFits {
      return NotFound;
    }
    r := Answer(total.value, if grouped then slices.value else [], slices.value[k]);
    assert r.attention == SliceOf(dimensions[k], cells[k]);
  }

  function Answer(total: Total, drillDown: seq<Slice>, attention: Slice): Response {
    Metric(Print(total.observed, SCALE), Print(total.prior, SCALE), Print(total.observed - total.prior, SCALE),
           Print(total.target, SCALE), Print(total.observed - total.target, SCALE), drillDown, attention)
  }

  lemma TextsOfSlices(slices: seq<Slice>, dimensions: seq<DimensionValue>, cells: seq<Cell>)
    requires AreSlices(slices, dimensions, cells)
    ensures SliceValues(slices) == PrintAll(Observed(cells), SCALE)
    ensures SliceVariances(slices) == PrintAll(Variances(cells), SCALE)
    ensures AllMillionths(SliceValues(slices)) == Observed(cells)
    ensures AllMillionths(SliceVariances(slices)) == Variances(cells)
  {
    ValueColumn(slices, dimensions, cells);
    VarianceColumn(slices, dimensions, cells);
    MillionthsOfAll(Observed(cells));
    MillionthsOfAll(Variances(cells));
  }

  lemma ValueColumn(slices: seq<Slice>, dimensions: seq<DimensionValue>, cells: seq<Cell>)
    requires AreSlices(slices, dimensions, cells)
    ensures SliceValues(slices) == PrintAll(Observed(cells), SCALE)
  {
  }

  lemma VarianceColumn(slices: seq<Slice>, dimensions: seq<DimensionValue>, cells: seq<Cell>)
    requires AreSlices(slices, dimensions, cells)
    ensures SliceVariances(slices) == PrintAll(Variances(cells), SCALE)
  {
  }

  // ---------------------------------------------------------- in terms of the facts

  predicate Fits(f: Fact, kind: Kind, dimension: Option<DimensionId>) {
    f.kind == kind && f.dimension == dimension
  }

  predicate FirstAt(facts: seq<Fact>, kind: Kind, dimension: Option<DimensionId>, i: nat) {
    i < |facts| && Fits(facts[i], kind, dimension) && forall j | 0 <= j < i :: !Fits(facts[j], kind, dimension)
  }

  /** `f` is the first of the facts of this kind for this dimension value, or for the total. */
  ghost predicate FirstIs(facts: seq<Fact>, kind: Kind, dimension: Option<DimensionId>, f: Fact) {
    exists i: nat :: FirstAt(facts, kind, dimension, i) && facts[i] == f
  }

  lemma {:induction false} FirstFactAt(facts: seq<Fact>, kind: Kind, dimension: Option<DimensionId>) returns (i: nat)
    ensures FirstFact(facts, kind, dimension).Some? ==>
              FirstAt(facts, kind, dimension, i) && FirstFact(facts, kind, dimension) == Some(facts[i])
    ensures FirstFact(facts, kind, dimension).None? ==>
              forall j | 0 <= j < |facts| :: !Fits(facts[j], kind, dimension)
    decreases |facts|
  {
    i := 0;
    if facts != [] && !Fits(facts[0], kind, dimension) {
      i := FirstFactAt(facts[1..], kind, dimension);
      assert forall j | 1 <= j < |facts| :: facts[j] == facts[1..][j - 1];
      i := i + 1;
    }
  }

  lemma FirstFactIff(facts: seq<Fact>, kind: Kind, dimension: Option<DimensionId>, f: Fact)
    ensures FirstFact(facts, kind, dimension) == Some(f) <==> FirstIs(facts, kind, dimension, f)
  {
    var i := FirstFactAt(facts, kind, dimension);
    if FirstIs(facts, kind, dimension, f) {
      var k: nat :| FirstAt(facts, kind, dimension, k) && facts[k] == f;
      assert FirstFact(facts, kind, dimension).Some?;
      assert i == k;
    }
  }

  /** The observation and the target of one dimension value, or of the total. */
  ghost predicate PairIs(facts: seq<Fact>, dimension: Option<DimensionId>, observed: Fact, target: Fact) {
    FirstIs(facts, Observation, dimension, observed) && FirstIs(facts, Target, dimension, target)
  }

  /** Every number of an answer comes from the first fact of its kind. */
  lemma NumbersOfFirstFacts(facts: seq<Fact>, dimension: Option<DimensionId>, observed: Fact, target: Fact)
    requires PairIs(facts, dimension, observed, target)
    ensures CellOf(facts, dimension) == Some(Cell(observed.units, target.units))
    ensures dimension == None ==>
              TotalOf(facts) == if observed.prior.Some? && observed.assessed
                                then Some(Total(observed.units, observed.prior.value, target.units)) else None
  {
    FirstFactIff(facts, Observation, dimension, observed);
    FirstFactIff(facts, Target, dimension, target);
  }

  lemma CellHasPair(facts: seq<Fact>, dimension: Option<DimensionId>) returns (observed: Fact, target: Fact)
    requires CellOf(facts, dimension).Some?
    ensures PairIs(facts, dimension, observed, target)
  {
    observed := FirstFact(facts, Observation, dimension).value;
    target := FirstFact(facts, Target, dimension).value;
    FirstFactIff(facts, Observation, dimension, observed);
    FirstFactIff(facts, Target, dimension, target);
  }

  /** The value of one slice. */
  ghost predicate ValueIs(facts: seq<Fact>, dimension: Option<DimensionId>, value: int) {
    exists o, t :: PairIs(facts, dimension, o, t) && value == o.units
  }

  lemma ValueIff(facts: seq<Fact>, dimension: Option<DimensionId>, value: int)
    ensures ValueIs(facts, dimension, value) <==>
              CellOf(facts, dimension).Some? && value == CellOf(facts, dimension).value.observed
  {
    if ValueIs(facts, dimension, value) {
      var o, t :| PairIs(facts, dimension, o, t) && value == o.units;
      NumbersOfFirstFacts(facts, dimension, o, t);
    }
    if CellOf(facts, dimension).Some? {
      var o, t := CellHasPair(facts, dimension);
      NumbersOfFirstFacts(facts, dimension, o, t);
    }
  }

  /** The values of the slices, in the order of the dimension values. */
  ghost predicate ValuesAre(facts: seq<Fact>, dimensions: seq<DimensionValue>, values: seq<int>) {
    |values| == |dimensions| && forall i | 0 <= i < |dimensions| :: ValueIs(facts, Some(dimensions[i].id), values[i])
  }

  lemma ValuesIff(facts: seq<Fact>, dimensions: seq<DimensionValue>, values: seq<int>)
    ensures ValuesAre(facts, dimensions, values) <==>
              Complete(facts, dimensions) && values == Observed(Cells(facts, dimensions))
  {
    if |values| == |dimensions| {
      forall i | 0 <= i < |dimensions| {
        ValueIff(facts, Some(dimensions[i].id), values[i]);
      }
    }
    if ValuesAre(facts, dimensions, values) {
      assert Complete(facts, dimensions);
      forall i | 0 <= i < |dimensions| ensures values[i] == Cells(facts, dimensions)[i].observed {
        assert ValueIs(facts, Some(dimensions[i].id), values[i]);
      }
      assert values == Observed(Cells(facts, dimensions));
    }
    if Complete(facts, dimensions) && values == Observed(Cells(facts, dimensions)) {
      forall i | 0 <= i < |dimensions| ensures ValueIs(facts, Some(dimensions[i].id), values[i]) {
        assert Some(Cells(facts, dimensions)[i]) == CellOf(facts, Some(dimensions[i].id));
      }
    }
  }

  /** What makes a metric answerable. */
  ghost predicate MetricIs(facts: seq<Fact>, dimensions: seq<DimensionValue>, o: Fact, t: Fact, values: seq<int>) {
    && PairIs(facts, None, o, t) && o.prior.Some? && o.assessed
    && ValuesAre(facts, dimensions, values) && Sum(values) == o.units
  }

  /** When the query can be answered: the totals are there, assessed and with a prior value, every
      dimension value has both its facts, the slices add up to the metric, and the rule fits. */
  lemma AnswerableIff(facts: seq<Fact>, dimensions: seq<DimensionValue>, around: Surroundings)
    ensures Answerable(facts, dimensions, around) <==>
              around.ruleFits && exists o, t, values :: MetricIs(facts, dimensions, o, t, values)
  {
    if Answerable(facts, dimensions, around) {
      var o, t := CellHasPair(facts, None);
      NumbersOfFirstFacts(facts, None, o, t);
      ValuesIff(facts, dimensions, Observed(Cells(facts, dimensions)));
      assert MetricIs(facts, dimensions, o, t, Observed(Cells(facts, dimensions)));
    }
    if o, t, values :| MetricIs(facts, dimensions, o, t, values) {
      NumbersOfFirstFacts(facts, None, o, t);
      ValuesIff(facts, dimensions, values);
    }
  }

  function Targets(cells: seq<Cell>): (ns: seq<int>)
    ensures |ns| == |cells| && forall i | 0 <= i < |ns| :: ns[i] == cells[i].target
  {
    seq(|cells|, i requires 0 <= i < |cells| => cells[i].target)
  }

  function SliceTargets(slices: seq<Slice>): (texts: seq<string>)
    ensures |texts| == |slices| && forall i | 0 <= i < |texts| :: texts[i] == slices[i].target
  {
    seq(|slices|, i requires 0 <= i < |slices| => slices[i].target)
  }

  /** What the slices of an answer say: they name the dimension values in order, and their three columns
      are the cells' values, targets and differences, printed at six digits. */
  lemma SlicesSay(slices: seq<Slice>, dimensions: seq<DimensionValue>, cells: seq<Cell>)
    requires AreSlices(slices, dimensions, cells)
    ensures |slices| == |dimensions|
    ensures forall i | 0 <= i < |slices| :: slices[i].id == dimensions[i].id && slices[i].name == dimensions[i].name
    ensures SliceValues(slices) == PrintAll(Observed(cells), 6)
    ensures SliceTargets(slices) == PrintAll(Targets(cells), 6)
    ensures SliceVariances(slices) == PrintAll(Variances(cells), 6)
  {
    ValueColumn(slices, dimensions, cells);
    VarianceColumn(slices, dimensions, cells);
    TargetColumn(slices, dimensions, cells);
  }

  lemma TargetColumn(slices: seq<Slice>, dimensions: seq<DimensionValue>, cells: seq<Cell>)
    requires AreSlices(slices, dimensions, cells)
    ensures SliceTargets(slices) == PrintAll(Targets(cells), SCALE)
  {
  }

  /** The cell of a dimension value is made of its first facts. */
  lemma CellsAreFirstFacts(facts: seq<Fact>, dimensions: seq<DimensionValue>, i: nat, o: Fact, t: Fact)
    requires Complete(facts, dimensions) && i < |dimensions| && PairIs(facts, Some(dimensions[i].id), o, t)
    ensures Cells(facts, dimensions)[i] == Cell(o.units, t.units)
  {
    NumbersOfFirstFacts(facts, Some(dimensions[i].id), o, t);
  }

  // ---------------------------------------------------------- theorems

  /** Across both tiers: every grouped answer reconciles on the page. */
  lemma GroupedAnswerReconciles(facts: seq<Fact>, dimensions: seq<DimensionValue>, around: Surroundings, r: Response)
    requires Answerable(facts, dimensions, around)
    requires IsAnswer(TotalOf(facts).value, dimensions, Cells(facts, dimensions), true, r)
    ensures Reconciles(SliceValues(r.drillDown), r.value)
  {
    var cells := Cells(facts, dimensions);
    TextsOfSlices(r.drillDown, dimensions, cells);
    PrintedReconcilesIff(Observed(cells), TotalOf(facts).value.observed, SCALE);
  }

  /** An ungrouped answer carries no slices, and then the page finds it reconciled exactly when the
      metric is zero. */
  lemma UngroupedAnswerReconcilesIffZero(facts: seq<Fact>, dimensions: seq<DimensionValue>, around: Surroundings,
                                         r: Response)
    requires Answerable(facts, dimensions, around)
    requires IsAnswer(TotalOf(facts).value, dimensions, Cells(facts, dimensions), false, r)
    ensures Reconciles(SliceValues(r.drillDown), r.value) <==> TotalOf(facts).value.observed == 0
  {
    assert SliceValues(r.drillDown) == PrintAll([], SCALE);
    PrintedReconcilesIff([], TotalOf(facts).value.observed, SCALE);
  }
}
