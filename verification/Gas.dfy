/**
 Gas metering: the meters of a block and of a validity predicate, and the gas of
 validity predicates that run in parallel, merged pairwise in any order.
 */
module Gas {
  import opened Options
  import opened Params

  const PARALLEL_GAS_DIVIDER: nat := 10
  const BLOCK_GAS_LIMIT: nat := 10_000_000_000_000
  const TRANSACTION_GAS_LIMIT: nat := 10_000_000_000

  datatype GasError = TransactionGasExceeded | BlockGasExceeded | GasOverflow

  datatype GasResult<+T> = Ok(value: T) | Err(error: GasError)

  // ---------- sums and maxima of runs ----------

  /** The sum of a multiset of gas costs. */
  ghost function SumOfRuns(m: multiset<nat>): nat {
    if m == multiset{} then 0
    else
      var x :| x in m;
      x + SumOfRuns(m - multiset{x})
  }

  lemma {:induction false} SumOfRunsSplit(m: multiset<nat>, x: nat)
    requires x in m
    ensures SumOfRuns(m) == x + SumOfRuns(m - multiset{x})
    decreases |m|
  {
    var y :| y in m && SumOfRuns(m) == y + SumOfRuns(m - multiset{y});
    if y != x {
      assert m - multiset{y} - multiset{x} == m - multiset{x} - multiset{y};
      SumOfRunsSplit(m - multiset{y}, x);
      SumOfRunsSplit(m - multiset{x}, y);
    }
  }

  ghost predicate IsMax(m: multiset<nat>, x: nat) {
    x in m && forall y :: y in m ==> y <= x
  }

  function SeqSum(s: seq<nat>): nat {
    if s == [] then 0 else SeqSum(s[..|s| - 1]) + s[|s| - 1]
  }

  lemma {:induction false} SeqSumIsSumOfRuns(s: seq<nat>)
    ensures SeqSum(s) == SumOfRuns(multiset(s))
  {
    if s != [] {
      var init, last := s[..|s| - 1], s[|s| - 1];
      assert s == init + [last];
      assert multiset(s) - multiset{last} == multiset(init);
      SumOfRunsSplit(multiset(s), last);
      SeqSumIsSumOfRuns(init);
    }
  }

  // ---------- gas of parallel runs ----------

  datatype Parallel = Parallel(max: Option<nat>, rest: seq<nat>)

  const NO_RUNS := Parallel(None, [])

  /** The costliest run in full and a tenth of the others. */
  function Charge(g: Parallel): nat {
    g.max.UnwrapOr(0) + SeqSum(g.rest) / PARALLEL_GAS_DIVIDER
  }

  function Together(a: Parallel, b: Parallel): Parallel {
    match (a.max, b.max)
    case (None, Some(_)) => Parallel(b.max, a.rest + b.rest)
    case (Some(x), Some(y)) => if x < y then Parallel(b.max, a.rest + [x] + b.rest)
      else Parallel(a.max, a.rest + [y] + b.rest)
    case _ => Parallel(a.max, a.rest + b.rest)
  }

  /** All the runs of a meter. */
  function RunsOf(g: Parallel): multiset<nat> {
    multiset(g.rest) + if g.max.Some? then multiset{g.max.value} else multiset{}
  }

  /** The recorded maximum is that of the runs, and there is one unless there are
      no runs. */
  ghost predicate Valid(g: Parallel) {
    if g.max.Some? then IsMax(RunsOf(g), g.max.value) else g.rest == []
  }

  lemma RestTogether(a: seq<nat>, x: nat, b: seq<nat>)
    ensures multiset(a + [x] + b) == multiset(a) + multiset{x} + multiset(b)
  {
  }

  lemma MergeRests(a: Parallel, b: Parallel)
    ensures RunsOf(Together(a, b)) == RunsOf(a) + RunsOf(b)
  {
    if a.max.Some? && b.max.Some? {
      RestTogether(a.rest, a.max.value, b.rest);
      RestTogether(a.rest, b.max.value, b.rest);
    }
  }

  lemma MaxOfBoth(m: multiset<nat>, x: nat, n: multiset<nat>, y: nat)
    requires IsMax(m, x) && IsMax(n, y)
    ensures IsMax(m + n, if x < y then y else x)
  {
  }

  /** Merging puts the runs together. */
  lemma MergeRuns(a: Parallel, b: Parallel)
    requires Valid(a) && Valid(b)
    ensures RunsOf(Together(a, b)) == RunsOf(a) + RunsOf(b) && Valid(Together(a, b))
  {
    hide RunsOf, IsMax;
    MergeRests(a, b);
    if a.max.Some? && b.max.Some? {
      MaxOfBoth(RunsOf(a), a.max.value, RunsOf(b), b.max.value);
    } else if a.max.None? {
      NoRunsOf(a, b);
    } else {
      NoRunsOf(b, a);
    }
  }

  lemma NoRunsOf(a: Parallel, b: Parallel)
    requires Valid(a) && a.max.None?
    ensures RunsOf(a) + RunsOf(b) == RunsOf(b) == RunsOf(b) + RunsOf(a)
    ensures b.max.None? && Valid(b) ==> a.rest + b.rest == []
  {
  }

  lemma MaxUnique(m: multiset<nat>, x: nat, y: nat)
    requires IsMax(m, x) && IsMax(m, y)
    ensures x == y
  {
  }

  lemma RestOfRuns(g: Parallel)
    requires g.max.Some?
    ensures g.max.value in RunsOf(g) && RunsOf(g) - multiset{g.max.value} == multiset(g.rest)
  {
  }

  /** The charge depends only on the runs. */
  lemma ChargeOfRuns(g: Parallel, max: nat)
    requires Valid(g) && IsMax(RunsOf(g), max)
    ensures Charge(g) == max + (SumOfRuns(RunsOf(g)) - max) / PARALLEL_GAS_DIVIDER
  {
    hide SumOfRuns;
    if g.max.Some? {
      MaxUnique(RunsOf(g), g.max.value, max);
      RestOfRuns(g);
      SumOfRunsSplit(RunsOf(g), max);
    }
    SeqSumIsSumOfRuns(g.rest);
  }

  lemma {:induction false} SeqSumConcat(a: seq<nat>, b: seq<nat>)
    ensures SeqSum(a + b) == SeqSum(a) + SeqSum(b)
  {
    if b == [] {
      assert a + b == a;
    } else {
      assert (a + b)[..|a + b| - 1] == a + b[..|b| - 1];
      SeqSumConcat(a, b[..|b| - 1]);
    }
  }

  lemma TogetherSum(a: Parallel, b: Parallel)
    ensures SeqSum(Together(a, b).rest) ==
      SeqSum(a.rest) + SeqSum(b.rest) + if a.max.Some? && b.max.Some? then Min(a.max.value, b.max.value) else 0
  {
    SeqSumConcat(a.rest, b.rest);
    if a.max.Some? && b.max.Some? {
      SeqSumInsert(a.rest, a.max.value, b.rest);
      SeqSumInsert(a.rest, b.max.value, b.rest);
    }
  }

  lemma SeqSumInsert(a: seq<nat>, x: nat, b: seq<nat>)
    ensures SeqSum(a + [x] + b) == SeqSum(a) + x + SeqSum(b)
  {
    SeqSumConcat(a + [x], b);
    SeqSumConcat(a, [x]);
  }

  lemma TenthMonotone(x: nat, y: nat)
    requires x <= y
    ensures x / PARALLEL_GAS_DIVIDER <= y / PARALLEL_GAS_DIVIDER
  {
  }

  /** Merging never lowers the gas. */
  lemma MergeMonotone(a: Parallel, b: Parallel)
    ensures Charge(a) <= Charge(Together(a, b)) && Charge(b) <= Charge(Together(a, b))
  {
    hide SeqSum;
    TogetherSum(a, b);
    TenthMonotone(SeqSum(a.rest), SeqSum(Together(a, b).rest));
    TenthMonotone(SeqSum(b.rest), SeqSum(Together(a, b).rest));
  }

  // ---------- merge trees ----------

  /** How the runs of a transaction's validity predicates are put together. */
  datatype Tree = Nothing | Run(gas: nat) | Merged(left: Tree, right: Tree)

  function Runs(t: Tree): multiset<nat> {
    match t
    case Nothing => multiset{}
    case Run(g) => multiset{g}
    case Merged(l, r) => Runs(l) + Runs(r)
  }

  function Meter(t: Tree): Parallel {
    match t
    case Nothing => NO_RUNS
    case Run(g) => Parallel(Some(g), [])
    case Merged(l, r) => Together(Meter(l), Meter(r))
  }

  function Limited(g: Parallel, initial: nat): GasResult<Parallel> {
    if initial + Charge(g) <= TRANSACTION_GAS_LIMIT then Ok(g) else Err(GasOverflow)
  }

  /** The tree evaluated as the code does: the limit is checked at every run and
      at every merge, and the first error ends it. */
  function Evaluate(t: Tree, initial: nat): GasResult<Parallel> {
    match t
    case Nothing => Ok(NO_RUNS)
    case Run(g) => Limited(Parallel(Some(g), []), initial)
    case Merged(l, r) =>
      match (Evaluate(l, initial), Evaluate(r, initial))
      case (Ok(a), Ok(b)) => Limited(Together(a, b), initial)
      case (Err(e), _) => Err(e)
      case (_, Err(e)) => Err(e)
  }

  lemma {:induction false} MeterRuns(t: Tree)
    ensures Valid(Meter(t)) && RunsOf(Meter(t)) == Runs(t)
  {
    if t.Merged? {
      MeterRuns(t.left);
      MeterRuns(t.right);
      MergeRuns(Meter(t.left), Meter(t.right));
    }
  }

  /** Any grouping and order of the runs is charged the largest of them and a
      tenth of the rest. */
  lemma TreeCharge(t: Tree, max: nat)
    requires IsMax(Runs(t), max)
    ensures Charge(Meter(t)) == max + (SumOfRuns(Runs(t)) - max) / PARALLEL_GAS_DIVIDER
  {
    MeterRuns(t);
    ChargeOfRuns(Meter(t), max);
  }

  /** The verdict on the limit is the one on the whole charge, whatever the tree. */
  lemma {:induction false} EvaluateDecides(t: Tree, initial: nat)
    requires Runs(t) != multiset{} || initial <= TRANSACTION_GAS_LIMIT
    ensures Evaluate(t, initial) == Limited(Meter(t), initial)
  {
    if t.Merged? {
      MergeMonotone(Meter(t.left), Meter(t.right));
      EvaluateSide(t.left, initial);
      EvaluateSide(t.right, initial);
    }
  }

  lemma {:induction false} EvaluateSide(t: Tree, initial: nat)
    ensures Evaluate(t, initial).Ok? ==> Evaluate(t, initial) == Ok(Meter(t))
    ensures Evaluate(t, initial).Err? ==>
      Evaluate(t, initial) == Err(GasOverflow) && initial + Charge(Meter(t)) > TRANSACTION_GAS_LIMIT
  {
    if t.Merged? {
      EvaluateSide(t.left, initial);
      EvaluateSide(t.right, initial);
      MergeMonotone(Meter(t.left), Meter(t.right));
    }
  }

  /** Every sum of gas that the evaluation takes, also one that turns out to exceed
      the limit, fits in 64 bits. */
  lemma SumsFit(l: Tree, r: Tree, initial: nat)
    requires Evaluate(l, initial).Ok? && Evaluate(r, initial).Ok?
    ensures SeqSum(Together(Evaluate(l, initial).value, Evaluate(r, initial).value).rest) <= U64_MAX
  {
    hide SeqSum;
    var a, b := Evaluate(l, initial).value, Evaluate(r, initial).value;
    TogetherSum(a, b);
    WithinLimit(l, initial);
    WithinLimit(r, initial);
  }

  lemma WithinLimit(t: Tree, initial: nat)
    requires Evaluate(t, initial).Ok?
    ensures var g := Evaluate(t, initial).value;
      g.max.UnwrapOr(0) <= TRANSACTION_GAS_LIMIT && SeqSum(g.rest) < PARALLEL_GAS_DIVIDER * (TRANSACTION_GAS_LIMIT + 1)
  {
    var g := Evaluate(t, initial).value;
    if !t.Nothing? {
      assert initial + Charge(g) <= TRANSACTION_GAS_LIMIT;
    }
  }

  /** Trees over the same runs agree on the charge and on the limit. */
  lemma TreeIndependent(s: Tree, t: Tree, initial: nat)
    requires Runs(s) == Runs(t) != multiset{}
    ensures Charge(Meter(s)) == Charge(Meter(t))
    ensures Evaluate(s, initial).Ok? <==> Evaluate(t, initial).Ok?
  {
    MeterRuns(s);
    var max := Meter(s).max.value;
    TreeCharge(s, max);
    TreeCharge(t, max);
    EvaluateDecides(s, initial);
    EvaluateDecides(t, initial);
  }

  // ---------- the meters in place ----------

  /** The gas of one validity predicate. */
  class VpGasMeter {
    var initialGas: nat
    var currentGas: nat

    constructor (initialGas: nat)
      ensures this.initialGas == initialGas && currentGas == 0
    {
      this.initialGas, currentGas := initialGas, 0;
    }

    /** The gas is recorded even when it exceeds the limit, but not when it
        overflows. */
    method Add(gas: nat) returns (r: GasResult<()>)
      modifies this`currentGas
      ensures currentGas == if old(currentGas) + gas <= U64_MAX then old(currentGas) + gas else old(currentGas)
      ensures r.Ok? <==> initialGas + old(currentGas) + gas <= TRANSACTION_GAS_LIMIT
      ensures r == Err(TransactionGasExceeded) <==>
        TRANSACTION_GAS_LIMIT < initialGas + old(currentGas) + gas <= U64_MAX
    {
      if currentGas + gas > U64_MAX {
        return Err(GasOverflow);
      }
      currentGas := currentGas + gas;
      if initialGas + currentGas > U64_MAX {
        return Err(GasOverflow);
      }
      if initialGas + currentGas > TRANSACTION_GAS_LIMIT {
        return Err(TransactionGasExceeded);
      }
      r := Ok(());
    }
  }

  /** The gas of validity predicates that ran in parallel. */
  class VpsGas {
    var max: Option<nat>
    var rest: seq<nat>

    function Value(): Parallel
      reads this
    {
      Parallel(max, rest)
    }

    constructor ()
      ensures Value() == NO_RUNS
    {
      max, rest := None, [];
    }

    method GetCurrentGas() returns (r: GasResult<nat>)
      ensures r == if Charge(Value()) <= U64_MAX then Ok(Charge(Value())) else Err(GasOverflow)
    {
      var sum := 0;
      for i := 0 to |rest|
        invariant sum == SeqSum(rest[..i])
      {
        assert rest[..i + 1][..i] == rest[..i];
        sum := sum + rest[i];
      }
      assert rest[..|rest|] == rest;
      var total := max.UnwrapOr(0) + sum / PARALLEL_GAS_DIVIDER;
      r := if total <= U64_MAX then Ok(total) else Err(GasOverflow);
    }

    method CheckLimit(initialGas: nat) returns (r: GasResult<()>)
      ensures r.Ok? <==> Limited(Value(), initialGas).Ok?
      ensures r.Err? ==> r == Err(GasOverflow)
    {
      var current := GetCurrentGas();
      if current.Err? {
        return Err(current.error);
      }
      if initialGas + current.value > U64_MAX || initialGas + current.value > TRANSACTION_GAS_LIMIT {
        return Err(GasOverflow);
      }
      r := Ok(());
    }

    /** Records a single run. */
    method Set(meter: VpGasMeter) returns (r: GasResult<()>)
      requires Value() == NO_RUNS
      modifies this
      ensures Value() == Parallel(Some(meter.currentGas), [])
      ensures r.Ok? <==> Limited(Value(), meter.initialGas).Ok?
    {
      max := Some(meter.currentGas);
      r := CheckLimit(meter.initialGas);
    }

    /** Takes over the runs of another meter. */
    method Merge(other: VpsGas, initialGas: nat) returns (r: GasResult<()>)
      requires other != this
      modifies this, other`rest
      ensures Value() == Together(old(Value()), old(other.Value())) && other.rest == []
      ensures r.Ok? <==> Limited(Value(), initialGas).Ok?
    {
      if max.None? && other.max.Some? {
        max := other.max;
      } else if max.Some? && other.max.Some? {
        if max.value < other.max.value {
          rest := rest + [max.value];
          max := other.max;
        } else {
          rest := rest + [other.max.value];
        }
      }
      rest := rest + other.rest;
      other.rest := [];
      r := CheckLimit(initialGas);
    }
  }

  // ---------- the gas of a block ----------

  /** Gas of the finished transactions and of the current one. */
  datatype Block = Block(block: nat, transaction: nat)

  class BlockGasMeter {
    var blockGas: nat
    var transactionGas: nat

    function Value(): Block
      reads this
    {
      Block(blockGas, transactionGas)
    }

    constructor ()
      ensures Value() == Block(0, 0)
    {
      blockGas, transactionGas := 0, 0;
    }

    method Add(gas: nat) returns (r: GasResult<()>)
      modifies this
      ensures Value() == Step(old(Value()), Charged(gas)).0
      ensures r.Ok? <==> Step(old(Value()), Charged(gas)).1.None?
      ensures r.Err? ==> Step(old(Value()), Charged(gas)).1 == Some(r.error)
    {
      if transactionGas + gas > U64_MAX {
        return Err(GasOverflow);
      }
      transactionGas := transactionGas + gas;
      if transactionGas > TRANSACTION_GAS_LIMIT {
        return Err(TransactionGasExceeded);
      }
      r := Ok(());
    }

    method AddVpsGas(vps: VpsGas) returns (r: GasResult<()>)
      modifies this
      ensures Charge(old(vps.Value())) > U64_MAX ==> Value() == old(Value()) && r == Err(GasOverflow)
      ensures Charge(old(vps.Value())) <= U64_MAX ==>
        var (value, error) := Step(old(Value()), Charged(Charge(old(vps.Value()))));
        Value() == value && (r.Ok? <==> error.None?) && (r.Err? ==> error == Some(r.error))
    {
      var gas := vps.GetCurrentGas();
      if gas.Err? {
        return Err(gas.error);
      }
      r := Add(gas.value);
    }

    method FinalizeTransaction() returns (r: GasResult<nat>)
      modifies this
      ensures Value() == Step(old(Value()), Finalized).0
      ensures r.Ok? <==> Step(old(Value()), Finalized).1.None?
      ensures r.Ok? ==> r.value == old(transactionGas)
      ensures r.Err? ==> Step(old(Value()), Finalized).1 == Some(r.error)
    {
      if blockGas + transactionGas > U64_MAX {
        return Err(GasOverflow);
      }
      blockGas := blockGas + transactionGas;
      var gas := transactionGas;
      transactionGas := 0;
      if blockGas > BLOCK_GAS_LIMIT {
        return Err(BlockGasExceeded);
      }
      r := Ok(gas);
    }
  }

  /** What happens to the meter within a block. */
  datatype Event = Charged(gas: nat) | Finalized

  /** The meter after an event, and the error if there is one. */
  function Step(b: Block, event: Event): (Block, Option<GasError>) {
    match event
    case Charged(gas) =>
      var sum := b.transaction + gas;
      if sum > U64_MAX then (b, Some(GasOverflow))
      else (Block(b.block, sum), if sum > TRANSACTION_GAS_LIMIT then Some(TransactionGasExceeded) else None)
    case Finalized =>
      var sum := b.block + b.transaction;
      if sum > U64_MAX then (b, Some(GasOverflow))
      else (Block(sum, 0), if sum > BLOCK_GAS_LIMIT then Some(BlockGasExceeded) else None)
  }

  function After(events: seq<Event>): Block {
    if events == [] then Block(0, 0)
    else Step(After(events[..|events| - 1]), events[|events| - 1]).0
  }

  /** The gas charged in a block, leaving out what overflowed the meter. */
  function Counted(events: seq<Event>): nat {
    if events == [] then 0
    else
      var before, last := events[..|events| - 1], events[|events| - 1];
      Counted(before) + if last.Charged? && After(before).transaction + last.gas <= U64_MAX then last.gas else 0
  }

  ghost predicate NoErrors(events: seq<Event>) {
    forall i :: 0 <= i < |events| ==> Step(After(events[..i]), events[i]).1.None?
  }

  /** No gas is lost between the transactions and the block, and as long as no
      error was reported both meters are within their limits. */
  lemma {:induction false} BlockGasConserved(events: seq<Event>)
    ensures After(events).block + After(events).transaction == Counted(events)
    ensures After(events).block <= U64_MAX && After(events).transaction <= U64_MAX
    ensures NoErrors(events) ==>
      After(events).block <= BLOCK_GAS_LIMIT && After(events).transaction <= TRANSACTION_GAS_LIMIT
    decreases |events|
  {
    hide NoErrors;
    if events != [] {
      BlockGasConserved(events[..|events| - 1]);
      NoErrorsBefore(events);
    }
  }

  lemma NoErrorsBefore(events: seq<Event>)
    requires events != []
    ensures var before := events[..|events| - 1];
      NoErrors(events) ==> NoErrors(before) && Step(After(before), events[|before|]).1.None?
  {
    hide Step, After;
    var before := events[..|events| - 1];
    if NoErrors(events) {
      forall i | 0 <= i < |before| ensures Step(After(before[..i]), before[i]).1.None? {
        assert before[..i] == events[..i] && before[i] == events[i];
      }
      assert Step(After(events[..|before|]), events[|before|]).1.None?;
    }
  }
}
