/** The greedy training loop of vision/main_vision.py: the model returns one
    loss per module (and per data-parallel replica), the replicas are averaged,
    either one module's loss or the sum over all modules is back-propagated,
    and per-module epoch accumulators are kept. Validation averages the same
    quantities over the validation loader.

    The model call itself, the optimizer step, `backward`, printing and wandb
    logging are outside this model: the model's outputs are arguments, and
    what the loops print is returned as data. */
module GreedyTraining {
  import opened Results
  import opened Tensors

  /** The exceptions the loops can raise. */
  datatype TrainError =
    | IndexError    // a list or tensor indexed past its end
    | ZeroDivision  // an average over an empty loader
    | BroadcastError  // numpy adding two 1-d arrays whose lengths cannot be broadcast together

  /* ----------------------------------------------------------------------- */
  /* Replica averaging                                                        */
  /* ----------------------------------------------------------------------- */

  /** What one call of the model returns for the four reported quantities:
      one row per data-parallel replica, one column per module. */
  datatype ReplicaOutputs = ReplicaOutputs(
    loss: seq<seq<real>>, nceLoss: seq<seq<real>>, kldLoss: seq<seq<real>>, accuracy: seq<seq<real>>)

  /** At least one replica, and `splits` values per replica for each quantity. */
  predicate WellShaped(o: ReplicaOutputs, splits: nat)
  {
    && |o.loss| > 0 && IsMatrix(o.loss, splits)
    && |o.nceLoss| > 0 && IsMatrix(o.nceLoss, splits)
    && |o.kldLoss| > 0 && IsMatrix(o.kldLoss, splits)
    && |o.accuracy| > 0 && IsMatrix(o.accuracy, splits)
  }

  /** The four quantities of one step after averaging, one value per module. */
  datatype StepLosses = StepLosses(loss: seq<real>, nceLoss: seq<real>, kldLoss: seq<real>, accuracy: seq<real>)

  /** `torch.mean(x, 0)` applied to each quantity: the replica axis is averaged
      away before any module is selected. */
  function AverageReplicas(o: ReplicaOutputs, splits: nat): (r: StepLosses)
    requires WellShaped(o, splits)
    ensures |r.loss| == splits && |r.nceLoss| == splits && |r.kldLoss| == splits && |r.accuracy| == splits
    ensures forall j :: 0 <= j < splits ==>
              && r.loss[j] == Mean(Column(o.loss, splits, j))
              && r.nceLoss[j] == Mean(Column(o.nceLoss, splits, j))
              && r.kldLoss[j] == Mean(Column(o.kldLoss, splits, j))
              && r.accuracy[j] == Mean(Column(o.accuracy, splits, j))
  {
    StepLosses(ColumnMean(o.loss, splits), ColumnMean(o.nceLoss, splits),
               ColumnMean(o.kldLoss, splits), ColumnMean(o.accuracy, splits))
  }

  /** Replicas that agree (in particular, a single replica) average to their
      common values: averaging changes nothing without data parallelism. */
  lemma AgreeingReplicasAverageToThemselves(o: ReplicaOutputs, v: StepLosses, splits: nat)
    requires WellShaped(o, splits)
    requires |v.loss| == |v.nceLoss| == |v.kldLoss| == |v.accuracy| == splits
    requires forall k :: 0 <= k < |o.loss| ==> o.loss[k] == v.loss
    requires forall k :: 0 <= k < |o.nceLoss| ==> o.nceLoss[k] == v.nceLoss
    requires forall k :: 0 <= k < |o.kldLoss| ==> o.kldLoss[k] == v.kldLoss
    requires forall k :: 0 <= k < |o.accuracy| ==> o.accuracy[k] == v.accuracy
    ensures AverageReplicas(o, splits) == v
  {
    ColumnMeanOfCopies(o.loss, v.loss);
    ColumnMeanOfCopies(o.nceLoss, v.nceLoss);
    ColumnMeanOfCopies(o.kldLoss, v.kldLoss);
    ColumnMeanOfCopies(o.accuracy, v.accuracy);
  }

  /* ----------------------------------------------------------------------- */
  /* Greedy selection of the back-propagated loss                             */
  /* ----------------------------------------------------------------------- */

  /** The module the loop trains; the source fixes it at 3 instead of reading
      it from the options. */
  const HardCodedTrainModule: int := 3

  /** Whether one module's loss is singled out: the trained module is not the
      last-plus-one marker `model_splits`, and there is more than one module. */
  predicate Greedy(cur: int, splits: nat)
  {
    cur != splits && splits > 1
  }

  /** Python's `v[i]` position for a vector of length `n`: negative `i` counts
      from the end, anything outside `[-n, n)` raises. */
  function PyIndex(i: int, n: nat): (r: Option<nat>)
    ensures r.Some? <==> -(n as int) <= i < n
    ensures r.Some? ==> r.value < n && r.value as int == (if i >= 0 then i else n + i)
  {
    if 0 <= i < n then Some(i) else if -(n as int) <= i < 0 then Some((n + i) as nat) else None
  }

  /** `loss = loss[cur].unsqueeze(0)` when greedy, `loss` unchanged otherwise. */
  function SelectForBackward(loss: seq<real>, cur: int): (r: Result<seq<real>, TrainError>)
    ensures !Greedy(cur, |loss|) ==> r == Ok(loss)
    ensures Greedy(cur, |loss|) ==> (r.Ok? <==> -(|loss| as int) <= cur < |loss|)
    ensures Greedy(cur, |loss|) && r.Ok? ==>
              |r.value| == 1 && r.value[0] == loss[if cur >= 0 then cur else |loss| + cur]
    ensures r.Err? ==> r.error == IndexError
  {
    if Greedy(cur, |loss|) then
      match PyIndex(cur, |loss|)
      case Some(i) => Ok([loss[i]])
      case None => Err(IndexError)
    else
      Ok(loss)
  }

  /** `torch.sum(loss)`: the scalar handed to `backward`. */
  function BackwardLoss(selected: seq<real>): (r: real)
    ensures |selected| == 1 ==> r == selected[0]
  {
    if |selected| == 1 then
      assert selected == [selected[0]];
      SumSingleton(selected[0]);
      Sum(selected)
    else
      Sum(selected)
  }

  /** In greedy mode the gradient flows from the chosen module's loss alone. */
  lemma GreedyBackwardIsOneModule(loss: seq<real>, cur: int)
    requires Greedy(cur, |loss|) && -(|loss| as int) <= cur < |loss|
    ensures var i := if cur >= 0 then cur else |loss| + cur;
            && SelectForBackward(loss, cur) == Ok([loss[i]])
            && BackwardLoss(SelectForBackward(loss, cur).value) == loss[i]
  {
  }

  /** Otherwise it flows from every module's loss at once, and the scalar is
      the mean over the replicas of each replica's total loss. */
  lemma FullBackwardIsMeanOfReplicaTotals(o: ReplicaOutputs, splits: nat, cur: int)
    requires WellShaped(o, splits) && !Greedy(cur, splits)
    ensures SelectForBackward(AverageReplicas(o, splits).loss, cur) == Ok(AverageReplicas(o, splits).loss)
    ensures BackwardLoss(AverageReplicas(o, splits).loss) == Mean(RowSums(o.loss))
  {
    ColumnMeanTotal(o.loss, splits);
  }

  /** With the hard-coded module 3: two modules make the loop raise on its
      first step; one or three modules (or none) train end to end on the sum;
      four or more train module 3 alone. */
  lemma HardCodedModuleThree(loss: seq<real>)
    ensures SelectForBackward(loss, HardCodedTrainModule).Err? <==> |loss| == 2
    ensures |loss| in {0, 1, 3} ==> SelectForBackward(loss, HardCodedTrainModule) == Ok(loss)
    ensures |loss| >= 4 ==> SelectForBackward(loss, HardCodedTrainModule) == Ok([loss[3]])
  {
  }

  /* ----------------------------------------------------------------------- */
  /* Per-module epoch accumulators                                            */
  /* ----------------------------------------------------------------------- */

  /** `loss_epoch` and `loss_updates`, one entry per module. */
  datatype Accumulators = Accumulators(lossEpoch: seq<real>, updates: seq<int>)

  predicate Sized(a: Accumulators, splits: nat)
  {
    |a.lossEpoch| == splits && |a.updates| == splits
  }

  /** The accumulators at the start of every epoch: losses 0, counters 1. */
  function InitialAccumulators(splits: nat): (a: Accumulators)
    ensures Sized(a, splits)
    ensures forall i :: 0 <= i < splits ==> a.lossEpoch[i] == 0.0 && a.updates[i] == 1
  {
    Accumulators(Constant(splits, 0.0), seq(splits, i => 1))
  }

  /** The effect of the logging loop on the accumulators: entry `i` gains
      `selected[i]` and one update when `i` is a position of `selected`. */
  function Log(a: Accumulators, selected: seq<real>): (r: Accumulators)
    requires |a.updates| == |a.lossEpoch| && |selected| <= |a.lossEpoch|
    ensures Sized(r, |a.lossEpoch|)
  {
    Accumulators(
      seq(|a.lossEpoch|, i requires 0 <= i < |a.lossEpoch| =>
        if i < |selected| then a.lossEpoch[i] + selected[i] else a.lossEpoch[i]),
      seq(|a.updates|, i requires 0 <= i < |a.updates| =>
        if i < |selected| then a.updates[i] + 1 else a.updates[i]))
  }

  /** What one pass of the logging loop leaves behind: the accumulators and
      the (loss, accuracy) pairs it prints. */
  datatype Logged = Logged(acc: Accumulators, printed: seq<(real, real)>)

  /** The logging loop `for idx, cur_losses in enumerate(loss)`, which reads
      `accuracy[idx]`, `loss_epoch[idx]` and `loss_updates[idx]` and raises if
      any of them is too short. */
  method LogStep(a: Accumulators, selected: seq<real>, accuracy: seq<real>) returns (r: Result<Logged, TrainError>)
    ensures r.Ok? <==> |selected| <= |accuracy| && |selected| <= |a.lossEpoch| && |selected| <= |a.updates|
    ensures r.Err? ==> r.error == IndexError
    ensures r.Ok? ==> |a.updates| == |a.lossEpoch| ==> r.value.acc == Log(a, selected)
    ensures r.Ok? ==>
              && |r.value.acc.lossEpoch| == |a.lossEpoch| && |r.value.acc.updates| == |a.updates|
              && (forall i :: 0 <= i < |selected| ==>
                    r.value.acc.lossEpoch[i] == a.lossEpoch[i] + selected[i]
                    && r.value.acc.updates[i] == a.updates[i] + 1)
              && (forall i :: |selected| <= i < |a.lossEpoch| ==> r.value.acc.lossEpoch[i] == a.lossEpoch[i])
              && (forall i :: |selected| <= i < |a.updates| ==> r.value.acc.updates[i] == a.updates[i])
              && |r.value.printed| == |selected|
              && (forall i :: 0 <= i < |selected| ==> r.value.printed[i] == (selected[i], accuracy[i]))
  {
    var lossEpoch := a.lossEpoch;
    var updates := a.updates;
    var printed: seq<(real, real)> := [];
    var idx := 0;
    while idx < |selected|
      invariant 0 <= idx <= |selected|
      invariant idx <= |accuracy| && idx <= |a.lossEpoch| && idx <= |a.updates|
      invariant |lossEpoch| == |a.lossEpoch| && |updates| == |a.updates|
      invariant forall i :: 0 <= i < idx ==> lossEpoch[i] == a.lossEpoch[i] + selected[i] && updates[i] == a.updates[i] + 1
      invariant forall i :: idx <= i < |lossEpoch| ==> lossEpoch[i] == a.lossEpoch[i]
      invariant forall i :: idx <= i < |updates| ==> updates[i] == a.updates[i]
      invariant |printed| == idx
      invariant forall i :: 0 <= i < idx ==> printed[i] == (selected[i], accuracy[i])
    {
      if idx >= |accuracy| || idx >= |lossEpoch| || idx >= |updates| {
        return Err(IndexError);
      }
      printed := printed + [(selected[idx], accuracy[idx])];
      lossEpoch := lossEpoch[idx := lossEpoch[idx] + selected[idx]];
      updates := updates[idx := updates[idx] + 1];
      idx := idx + 1;
    }
    r := Ok(Logged(Accumulators(lossEpoch, updates), printed));
  }

  /* ----------------------------------------------------------------------- */
  /* One training epoch                                                       */
  /* ----------------------------------------------------------------------- */

  predicate AllWellShaped(steps: seq<ReplicaOutputs>, splits: nat)
  {
    forall k :: 0 <= k < |steps| ==> WellShaped(steps[k], splits)
  }

  /** The accumulators after the steps of one epoch, the model's outputs at
      each step given; the first step whose selection raises ends the epoch
      with that error. */
  function TrainEpoch(steps: seq<ReplicaOutputs>, splits: nat, cur: int): (r: Result<Accumulators, TrainError>)
    requires AllWellShaped(steps, splits)
    ensures r.Ok? ==> Sized(r.value, splits)
    decreases |steps|
  {
    if |steps| == 0 then
      Ok(InitialAccumulators(splits))
    else
      var before :- TrainEpoch(steps[..|steps| - 1], splits, cur);
      var selected :- SelectForBackward(AverageReplicas(steps[|steps| - 1], splits).loss, cur);
      Ok(Log(before, selected))
  }

  /** The averaged loss of module `i` at every step. */
  function ModuleLosses(steps: seq<ReplicaOutputs>, splits: nat, i: nat): (r: seq<real>)
    requires AllWellShaped(steps, splits) && i < splits
    ensures |r| == |steps|
  {
    seq(|steps|, k requires 0 <= k < |steps| => AverageReplicas(steps[k], splits).loss[i])
  }

  lemma ModuleLossesPrefix(steps: seq<ReplicaOutputs>, splits: nat, i: nat)
    requires AllWellShaped(steps, splits) && i < splits && |steps| > 0
    ensures ModuleLosses(steps[..|steps| - 1], splits, i) == ModuleLosses(steps, splits, i)[..|steps| - 1]
  {
  }

  /** Without greedy selection every module is logged at every step: each
      counter ends at 1 plus the number of steps and each loss accumulator
      at the sum of that module's losses. */
  lemma {:induction false} FullEpochLogsEveryModule(steps: seq<ReplicaOutputs>, splits: nat, cur: int)
    requires AllWellShaped(steps, splits) && !Greedy(cur, splits)
    ensures TrainEpoch(steps, splits, cur).Ok?
    ensures forall i :: 0 <= i < splits ==>
              && TrainEpoch(steps, splits, cur).value.updates[i] == 1 + |steps|
              && TrainEpoch(steps, splits, cur).value.lossEpoch[i] == Sum(ModuleLosses(steps, splits, i))
  {
    if |steps| > 0 {
      var n := |steps|;
      FullEpochLogsEveryModule(steps[..n - 1], splits, cur);
      forall i | 0 <= i < splits
        ensures TrainEpoch(steps, splits, cur).value.lossEpoch[i] == Sum(ModuleLosses(steps, splits, i))
      {
        ModuleLossesPrefix(steps, splits, i);
      }
    }
  }

  /** The greedily trained module's loss at every step. */
  function SelectedLosses(steps: seq<ReplicaOutputs>, splits: nat, cur: nat): (r: seq<real>)
    requires AllWellShaped(steps, splits) && cur < splits
    ensures |r| == |steps|
  {
    ModuleLosses(steps, splits, cur)
  }

  /** In greedy mode the logging loop walks the one-element selection: entry 0
      collects the trained module's losses and counts every step, and every
      other entry keeps its initial 0 and 1. */
  lemma {:induction false} GreedyEpochLogsOnlyFirstEntry(steps: seq<ReplicaOutputs>, splits: nat, cur: nat)
    requires AllWellShaped(steps, splits) && Greedy(cur, splits) && cur < splits
    ensures TrainEpoch(steps, splits, cur).Ok?
    ensures TrainEpoch(steps, splits, cur).value.updates[0] == 1 + |steps|
    ensures TrainEpoch(steps, splits, cur).value.lossEpoch[0] == Sum(SelectedLosses(steps, splits, cur))
    ensures forall i :: 1 <= i < splits ==>
              TrainEpoch(steps, splits, cur).value.updates[i] == 1
              && TrainEpoch(steps, splits, cur).value.lossEpoch[i] == 0.0
  {
    if |steps| > 0 {
      GreedyEpochLogsOnlyFirstEntry(steps[..|steps| - 1], splits, cur);
      ModuleLossesPrefix(steps, splits, cur);
    }
  }

  /** With a valid module index the epoch never raises. */
  lemma EpochSucceedsInRange(steps: seq<ReplicaOutputs>, splits: nat, cur: int)
    requires AllWellShaped(steps, splits)
    requires !Greedy(cur, splits) || -(splits as int) <= cur < splits
    ensures TrainEpoch(steps, splits, cur).Ok?
  {
    if !Greedy(cur, splits) {
      FullEpochLogsEveryModule(steps, splits, cur);
    } else if cur >= 0 {
      GreedyEpochLogsOnlyFirstEntry(steps, splits, cur);
    } else {
      EpochSucceedsWithNegativeIndex(steps, splits, cur);
    }
  }

  lemma {:induction false} EpochSucceedsWithNegativeIndex(steps: seq<ReplicaOutputs>, splits: nat, cur: int)
    requires AllWellShaped(steps, splits) && Greedy(cur, splits) && -(splits as int) <= cur < 0
    ensures TrainEpoch(steps, splits, cur).Ok?
  {
    if |steps| > 0 {
      EpochSucceedsWithNegativeIndex(steps[..|steps| - 1], splits, cur);
    }
  }

  /** A module index outside `[-splits, splits)` raises on the first step of
      greedy training (and an empty epoch never reaches the index). */
  lemma {:induction false} EpochFailsOutOfRange(steps: seq<ReplicaOutputs>, splits: nat, cur: int)
    requires AllWellShaped(steps, splits) && |steps| > 0
    requires Greedy(cur, splits) && !(-(splits as int) <= cur < splits)
    ensures TrainEpoch(steps, splits, cur) == Err(IndexError)
  {
    if |steps| > 1 {
      EpochFailsOutOfRange(steps[..|steps| - 1], splits, cur);
    }
  }

  /* ----------------------------------------------------------------------- */
  /* Validation                                                               */
  /* ----------------------------------------------------------------------- */

  /** The three averages `validate` returns, and the losses it prints. */
  datatype Validation = Validation(printed: seq<real>, loss: seq<real>, nceLoss: seq<real>, kldLoss: seq<real>)

  /** The accumulators' size, fixed at 3 in `validate` whatever the
      configured number of modules. */
  const HardCodedValidationSplits: nat := 3

  /** Every value divided by the number of steps (`[x / total_step for x in ...]`). */
  function DivideAll(v: seq<real>, total: nat): (r: seq<real>)
    requires total > 0
    ensures |r| == |v|
  {
    seq(|v|, i requires 0 <= i < |v| => v[i] / total as real)
  }

  /** `acc += v` for a list or 1-d array `acc` and a 1-d numpy array `v`. The
      list has no numeric `+=`, so numpy's addition runs: element-wise, with an
      operand of length 1 stretched to the other's length. Any other pair of
      lengths cannot be broadcast together. */
  function BroadcastAdd(acc: seq<real>, v: seq<real>): (r: Result<seq<real>, TrainError>)
    ensures r.Ok? <==> |acc| == |v| || |acc| == 1 || |v| == 1
    ensures r.Err? ==> r.error == BroadcastError
    ensures r.Ok? ==> |r.value| == (if |acc| == 1 then |v| else |acc|)
    ensures r.Ok? ==> forall i :: 0 <= i < |r.value| ==>
              r.value[i] == (if |acc| == 1 then acc[0] else acc[i]) + (if |v| == 1 then v[0] else v[i])
  {
    if |acc| == |v| then Ok(Add(acc, v))
    else if |v| == 1 then Ok(seq(|acc|, i requires 0 <= i < |acc| => acc[i] + v[0]))
    else if |acc| == 1 then Ok(seq(|v|, i requires 0 <= i < |v| => acc[0] + v[i]))
    else Err(BroadcastError)
  }

  /** The accumulator after `acc += row` for every row in turn; the first step
      that cannot be broadcast raises. */
  function Accumulate(acc: seq<real>, rows: seq<seq<real>>): (r: Result<seq<real>, TrainError>)
    decreases |rows|
  {
    if |rows| == 0 then Ok(acc)
    else
      var prev :- Accumulate(acc, rows[..|rows| - 1]);
      BroadcastAdd(prev, rows[|rows| - 1])
  }

  /** Element-wise sum of the rows, starting from `splits` zeros. */
  function AddRows(rows: seq<seq<real>>, splits: nat): (r: seq<real>)
    requires IsMatrix(rows, splits)
    ensures |r| == splits
    decreases |rows|
  {
    if |rows| == 0 then Constant(splits, 0.0) else Add(AddRows(rows[..|rows| - 1], splits), rows[|rows| - 1])
  }

  lemma {:induction false} AddRowsIsColumnSums(rows: seq<seq<real>>, splits: nat)
    requires IsMatrix(rows, splits)
    ensures AddRows(rows, splits) == ColumnSums(rows, splits)
  {
    if |rows| == 0 {
      forall j | 0 <= j < splits
        ensures AddRows(rows, splits)[j] == ColumnSums(rows, splits)[j]
      {
        assert Column(rows, splits, j) == [];
      }
    } else {
      var n := |rows|;
      AddRowsIsColumnSums(rows[..n - 1], splits);
      forall j | 0 <= j < splits
        ensures AddRows(rows, splits)[j] == ColumnSums(rows, splits)[j]
      {
        assert Column(rows, splits, j)[..n - 1] == Column(rows[..n - 1], splits, j);
      }
    }
  }

  /** Rows as long as the accumulator are added element-wise: the accumulator
      ends as the sum of the rows. */
  lemma {:induction false} AccumulateMatchingRows(rows: seq<seq<real>>, splits: nat)
    requires IsMatrix(rows, splits)
    ensures Accumulate(Constant(splits, 0.0), rows) == Ok(AddRows(rows, splits))
  {
    if |rows| > 0 {
      AccumulateMatchingRows(rows[..|rows| - 1], splits);
    }
  }

  /** Rows of one value are stretched over the three slots: every slot ends as
      the sum of the rows' values. */
  lemma {:induction false} AccumulateSingleColumn(rows: seq<seq<real>>)
    requires IsMatrix(rows, 1)
    ensures Accumulate(Constant(HardCodedValidationSplits, 0.0), rows) ==
            Ok(Constant(HardCodedValidationSplits, AddRows(rows, 1)[0]))
  {
    if |rows| > 0 {
      var prefix, last := rows[..|rows| - 1], rows[|rows| - 1];
      AccumulateSingleColumn(prefix);
      var total := AddRows(rows, 1)[0];
      assert total == AddRows(prefix, 1)[0] + last[0];
      assert BroadcastAdd(Constant(HardCodedValidationSplits, AddRows(prefix, 1)[0]), last).value ==
             Constant(HardCodedValidationSplits, total);
    }
  }

  /** Rows of any other length cannot be broadcast against the three slots:
      the first step raises. */
  lemma {:induction false} AccumulateOtherWidthFails(rows: seq<seq<real>>, splits: nat)
    requires IsMatrix(rows, splits) && |rows| > 0
    requires splits != 1 && splits != HardCodedValidationSplits
    ensures Accumulate(Constant(HardCodedValidationSplits, 0.0), rows) == Err(BroadcastError)
  {
    if |rows| > 1 {
      AccumulateOtherWidthFails(rows[..|rows| - 1], splits);
    }
  }

  /** What accumulating onto the three zeros gives, for every row width. */
  lemma AccumulateOntoThreeZeros(rows: seq<seq<real>>, splits: nat)
    requires IsMatrix(rows, splits)
    ensures splits == HardCodedValidationSplits ==>
              Accumulate(Constant(HardCodedValidationSplits, 0.0), rows) == Ok(AddRows(rows, splits))
    ensures splits == 1 ==>
              Accumulate(Constant(HardCodedValidationSplits, 0.0), rows) ==
              Ok(Constant(HardCodedValidationSplits, AddRows(rows, 1)[0]))
    ensures |rows| > 0 && splits != 1 && splits != HardCodedValidationSplits ==>
              Accumulate(Constant(HardCodedValidationSplits, 0.0), rows) == Err(BroadcastError)
  {
    if splits == HardCodedValidationSplits {
      AccumulateMatchingRows(rows, splits);
    } else if splits == 1 {
      AccumulateSingleColumn(rows);
    } else if |rows| > 0 {
      AccumulateOtherWidthFails(rows, splits);
    }
  }

  /** Which reported quantity a row of vectors is taken from. */
  datatype Quantity = LossQuantity | NceQuantity | KldQuantity

  function Get(s: StepLosses, q: Quantity): seq<real>
  {
    match q
    case LossQuantity => s.loss
    case NceQuantity => s.nceLoss
    case KldQuantity => s.kldLoss
  }

  /** One quantity's averaged vector at every validation step. */
  function StepRows(steps: seq<ReplicaOutputs>, splits: nat, q: Quantity): (r: seq<seq<real>>)
    requires AllWellShaped(steps, splits)
    ensures |r| == |steps| && IsMatrix(r, splits)
  {
    seq(|steps|, k requires 0 <= k < |steps| => Get(AverageReplicas(steps[k], splits), q))
  }

  /** `validate` as the source has it: three accumulators of 3 zeros, each
      step's vector added with numpy broadcasting, the first `splits`
      averages printed and all 3 returned. An empty loader divides by zero,
      and a non-empty one raises unless there are 1 or 3 modules. */
  function ValidateAsWritten(steps: seq<ReplicaOutputs>, splits: nat): (r: Result<Validation, TrainError>)
    requires AllWellShaped(steps, splits)
    ensures r.Err? <==> |steps| == 0 || (splits != 1 && splits != HardCodedValidationSplits)
    ensures |steps| == 0 ==> r == Err(ZeroDivision)
    ensures |steps| > 0 && r.Err? ==> r.error == BroadcastError
    ensures r.Ok? ==>
              && |r.value.loss| == HardCodedValidationSplits
              && |r.value.nceLoss| == HardCodedValidationSplits
              && |r.value.kldLoss| == HardCodedValidationSplits
              && r.value.printed == r.value.loss[..splits]
  {
    if |steps| == 0 then
      Err(ZeroDivision)
    else
      var zeros := Constant(HardCodedValidationSplits, 0.0);
      AccumulateOntoThreeZeros(StepRows(steps, splits, LossQuantity), splits);
      AccumulateOntoThreeZeros(StepRows(steps, splits, NceQuantity), splits);
      AccumulateOntoThreeZeros(StepRows(steps, splits, KldQuantity), splits);
      // The loss is accumulated first, so its failure is the one raised; once
      // it has broadcast, the other two (of the same width) broadcast as well.
      var lossEpoch :- Accumulate(zeros, StepRows(steps, splits, LossQuantity));
      var nceEpoch := Accumulate(zeros, StepRows(steps, splits, NceQuantity)).value;
      var kldEpoch := Accumulate(zeros, StepRows(steps, splits, KldQuantity)).value;
      var loss := DivideAll(lossEpoch, |steps|);
      Ok(Validation(loss[..splits], loss, DivideAll(nceEpoch, |steps|), DivideAll(kldEpoch, |steps|)))
  }

  /** `validate` as evidently intended: accumulators sized by the configured
      number of modules, added to element-wise, and divided by the number of
      steps, so that each average is the mean over the validation steps of
      that module's replica-averaged value. */
  function Validate(steps: seq<ReplicaOutputs>, splits: nat): (r: Result<Validation, TrainError>)
    requires AllWellShaped(steps, splits)
    ensures r.Err? <==> |steps| == 0
    ensures r.Err? ==> r.error == ZeroDivision
    ensures r.Ok? ==> |r.value.loss| == splits && r.value.printed == r.value.loss
    ensures r.Ok? ==>
              && r.value.loss == ColumnMean(StepRows(steps, splits, LossQuantity), splits)
              && r.value.nceLoss == ColumnMean(StepRows(steps, splits, NceQuantity), splits)
              && r.value.kldLoss == ColumnMean(StepRows(steps, splits, KldQuantity), splits)
  {
    if |steps| == 0 then
      Err(ZeroDivision)
    else
      var total := |steps|;
      AddRowsIsColumnSums(StepRows(steps, splits, LossQuantity), splits);
      AddRowsIsColumnSums(StepRows(steps, splits, NceQuantity), splits);
      AddRowsIsColumnSums(StepRows(steps, splits, KldQuantity), splits);
      var loss := DivideAll(AddRows(StepRows(steps, splits, LossQuantity), splits), total);
      Ok(Validation(loss, loss,
                    DivideAll(AddRows(StepRows(steps, splits, NceQuantity), splits), total),
                    DivideAll(AddRows(StepRows(steps, splits, KldQuantity), splits), total)))
  }

  /** With the 3 modules the accumulators were sized for, the code as written
      computes exactly the intended averages. */
  lemma AsWrittenIsIntendedForThreeModules(steps: seq<ReplicaOutputs>)
    requires AllWellShaped(steps, HardCodedValidationSplits)
    ensures ValidateAsWritten(steps, HardCodedValidationSplits) == Validate(steps, HardCodedValidationSplits)
  {
    if |steps| > 0 {
      var splits := HardCodedValidationSplits;
      AccumulateMatchingRows(StepRows(steps, splits, LossQuantity), splits);
      AccumulateMatchingRows(StepRows(steps, splits, NceQuantity), splits);
      AccumulateMatchingRows(StepRows(steps, splits, KldQuantity), splits);
      var w := ValidateAsWritten(steps, splits).value;
      assert w.printed == w.loss;
    }
  }

  /** With one module, the one average is stretched over the three slots: the
      code as written prints the intended average and returns three copies of
      each intended value. */
  lemma AsWrittenRepeatsSingleModule(steps: seq<ReplicaOutputs>)
    requires AllWellShaped(steps, 1) && |steps| > 0
    ensures var w := ValidateAsWritten(steps, 1).value;
            var v := Validate(steps, 1).value;
            && w.printed == v.printed
            && w.loss == [v.loss[0], v.loss[0], v.loss[0]]
            && w.nceLoss == [v.nceLoss[0], v.nceLoss[0], v.nceLoss[0]]
            && w.kldLoss == [v.kldLoss[0], v.kldLoss[0], v.kldLoss[0]]
  {
    AccumulateSingleColumn(StepRows(steps, 1, LossQuantity));
    AccumulateSingleColumn(StepRows(steps, 1, NceQuantity));
    AccumulateSingleColumn(StepRows(steps, 1, KldQuantity));
  }

  /** With any other number of modules, the code as written raises on the first
      validation step where the intended code returns the averages. */
  lemma AsWrittenRaisesForOtherModuleCounts(steps: seq<ReplicaOutputs>, splits: nat)
    requires AllWellShaped(steps, splits) && |steps| > 0
    requires splits != 1 && splits != HardCodedValidationSplits
    ensures ValidateAsWritten(steps, splits) == Err(BroadcastError)
    ensures Validate(steps, splits).Ok?
  {
  }

  /** One validation step of a four-module encoder: the code as written raises
      where the intended code reports the losses [1, 2, 3, 4]. */
  lemma FourModulesRaise()
    ensures var o := ReplicaOutputs([[1.0, 2.0, 3.0, 4.0]], [[1.0, 2.0, 3.0, 4.0]], [[0.0, 0.0, 0.0, 0.0]],
                                    [[0.5, 0.5, 0.5, 0.5]]);
            && ValidateAsWritten([o], 4) == Err(BroadcastError)
            && Validate([o], 4).value.loss == [1.0, 2.0, 3.0, 4.0]
  {
    var o := ReplicaOutputs([[1.0, 2.0, 3.0, 4.0]], [[1.0, 2.0, 3.0, 4.0]], [[0.0, 0.0, 0.0, 0.0]],
                            [[0.5, 0.5, 0.5, 0.5]]);
    var v := StepLosses([1.0, 2.0, 3.0, 4.0], [1.0, 2.0, 3.0, 4.0], [0.0, 0.0, 0.0, 0.0], [0.5, 0.5, 0.5, 0.5]);
    AgreeingReplicasAverageToThemselves(o, v, 4);
    var rows := StepRows([o], 4, LossQuantity);
    assert rows == [[1.0, 2.0, 3.0, 4.0]];
    assert rows[..0] == [];
    assert AddRows(rows[..0], 4) == [0.0, 0.0, 0.0, 0.0];
    assert AddRows(rows, 4) == [1.0, 2.0, 3.0, 4.0];
  }
}
