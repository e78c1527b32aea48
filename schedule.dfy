/**
 * Properties of the `train_model` schedule (utils.py:84-122), stated over the
 * specification functions of module Training that the methods are proved against.
 */
module Schedule {
  import opened Wrappers
  import opened Training

  /** The kinds of events the properties below count. */
  datatype Kind = ModeSet | OptimizerStep | ReportLine

  predicate Is(ev: Event, k: Kind)
  {
    match k
    case ModeSet => ev.Mode?
    case OptimizerStep => ev.Step?
    case ReportLine => ev.Report?
  }

  /** The events of `t` of kind `k`, in order. */
  function Filter(t: seq<Event>, k: Kind): seq<Event>
  {
    if t == [] then []
    else Filter(t[..|t| - 1], k) + (if Is(t[|t| - 1], k) then [t[|t| - 1]] else [])
  }

  lemma {:induction false} FilterAppend(a: seq<Event>, b: seq<Event>, k: Kind)
    ensures Filter(a + b, k) == Filter(a, k) + Filter(b, k)
  {
    if b == [] {
      assert a + b == a;
    } else {
      var init := b[..|b| - 1];
      FilterAppend(a, init, k);
      assert (a + b)[..|a + b| - 1] == a + init;
    }
  }

  lemma FilterAppend3(a: seq<Event>, b: seq<Event>, c: seq<Event>, k: Kind)
    ensures Filter(a + b + c, k) == Filter(a, k) + Filter(b, k) + Filter(c, k)
  {
    FilterAppend(a, b, k);
    FilterAppend(a + b, c, k);
  }

  lemma FilterSingle(ev: Event, k: Kind)
    ensures Filter([ev], k) == if Is(ev, k) then [ev] else []
  {
  }

  /** A trace with no event of kind `k` filters to nothing. */
  lemma {:induction false} FilterNone(t: seq<Event>, k: Kind)
    requires forall i :: 0 <= i < |t| ==> !Is(t[i], k)
    ensures Filter(t, k) == []
  {
    if t != [] {
      FilterNone(t[..|t| - 1], k);
    }
  }

  /** One batch's calls: no mode change, no report, one optimizer step when training. */
  lemma BatchCallsFilter(p: Phase)
    ensures Filter(BatchCalls(p), ModeSet) == []
    ensures Filter(BatchCalls(p), ReportLine) == []
    ensures |Filter(BatchCalls(p), OptimizerStep)| == if p == Train then 1 else 0
  {
    var calls := BatchCalls(p);
    FilterNone(calls, ModeSet);
    FilterNone(calls, ReportLine);
    if p == Train {
      var init := [ZeroGrad, Forward(true), Backward];
      assert calls == init + [Step];
      FilterNone(init, OptimizerStep);
      FilterAppend(init, [Step], OptimizerStep);
      FilterSingle(Step, OptimizerStep);
    } else {
      FilterNone(calls, OptimizerStep);
    }
  }

  /** A batch loop sets no mode and prints no report; it steps the optimizer once per train batch. */
  lemma {:induction false} BatchesFilter(p: Phase, bs: seq<Batch>)
    ensures Filter(BatchesTrace(p, bs), ModeSet) == []
    ensures Filter(BatchesTrace(p, bs), ReportLine) == []
    ensures |Filter(BatchesTrace(p, bs), OptimizerStep)| == if p == Train then |bs| else 0
  {
    if bs != [] {
      var init := bs[..|bs| - 1];
      BatchesFilter(p, init);
      BatchCallsFilter(p);
      FilterAppend(BatchesTrace(p, init), BatchCalls(p), ModeSet);
      FilterAppend(BatchesTrace(p, init), BatchCalls(p), ReportLine);
      FilterAppend(BatchesTrace(p, init), BatchCalls(p), OptimizerStep);
    }
  }

  /** The batches train for `p`'s pass in epoch `e`, as the number of optimizer steps it takes. */
  function StepsOf(e: nat, p: Phase, L: Loaders): nat
  {
    if p == Train && e != 0 then |L.draw(e, Train)| else 0
  }

  /** Up to its report, a pass that is not skipped is its mode, then its batches. */
  lemma PhaseFilterRan(e: nat, p: Phase, L: Loaders, k: Kind)
    requires !Skipped(e, p)
    ensures Filter([Mode(p)] + BatchesTrace(p, L.draw(e, p)), k) ==
              (if k == ModeSet then [Mode(p)] else []) + Filter(BatchesTrace(p, L.draw(e, p)), k)
  {
    FilterAppend([Mode(p)], BatchesTrace(p, L.draw(e, p)), k);
    FilterSingle(Mode(p), k);
  }

  /** A pass completes exactly under `PassCompletes`. */
  lemma PhaseCompletes(e: nat, p: Phase, L: Loaders)
    ensures PhaseRun(e, p, L).completed <==> PassCompletes(e, p, L)
  {
  }

  /** A pass that is not skipped is its mode and its batches, then its report when it completes. */
  lemma PhaseShape(e: nat, p: Phase, L: Loaders)
    requires !Skipped(e, p)
    ensures PhaseRun(e, p, L).completed ==>
              PhaseRun(e, p, L).trace ==
                [Mode(p)] + BatchesTrace(p, L.draw(e, p)) + [Report(p, TotalCorrects(L.draw(e, p)), L.Size(p))]
    ensures !PhaseRun(e, p, L).completed ==> PhaseRun(e, p, L).trace == [Mode(p)] + BatchesTrace(p, L.draw(e, p))
  {
  }

  /** The events of kind `k` of a pass that is not skipped: those up to its report, then the report itself. */
  lemma PhaseFilter(e: nat, p: Phase, L: Loaders, k: Kind)
    requires !Skipped(e, p)
    ensures PhaseRun(e, p, L).completed ==>
              Filter(PhaseRun(e, p, L).trace, k) ==
                Filter([Mode(p)] + BatchesTrace(p, L.draw(e, p)), k) + (if k == ReportLine then [Report(p, TotalCorrects(L.draw(e, p)), L.Size(p))] else [])
    ensures !PhaseRun(e, p, L).completed ==> Filter(PhaseRun(e, p, L).trace, k) == Filter([Mode(p)] + BatchesTrace(p, L.draw(e, p)), k)
  {
    PhaseShape(e, p, L);
    var bs := L.draw(e, p);
    var rep := Report(p, TotalCorrects(bs), L.Size(p));
    FilterAppend([Mode(p)] + BatchesTrace(p, bs), [rep], k);
    FilterSingle(rep, k);
  }

  /** A pass sets exactly its own mode, once, even when it is the skipped pass. */
  lemma PhaseModes(e: nat, p: Phase, L: Loaders)
    ensures Filter(PhaseRun(e, p, L).trace, ModeSet) == [Mode(p)]
  {
    FilterSingle(Mode(p), ModeSet);
    if !Skipped(e, p) {
      BatchesFilter(p, L.draw(e, p));
      PhaseFilterRan(e, p, L, ModeSet);
      PhaseFilter(e, p, L, ModeSet);
    }
  }

  /** A pass steps the optimizer once per batch when it trains in an epoch after the first, else never. */
  lemma PhaseSteps(e: nat, p: Phase, L: Loaders)
    ensures |Filter(PhaseRun(e, p, L).trace, OptimizerStep)| == StepsOf(e, p, L)
  {
    FilterSingle(Mode(p), OptimizerStep);
    if !Skipped(e, p) {
      BatchesFilter(p, L.draw(e, p));
      PhaseFilterRan(e, p, L, OptimizerStep);
      PhaseFilter(e, p, L, OptimizerStep);
    }
  }

  /** A pass prints one report line exactly when it completes and is not the skipped pass. */
  lemma PhaseReports(e: nat, p: Phase, L: Loaders)
    ensures |Filter(PhaseRun(e, p, L).trace, ReportLine)| ==
              if PhaseRun(e, p, L).completed && !Skipped(e, p) then 1 else 0
  {
    FilterSingle(Mode(p), ReportLine);
    if !Skipped(e, p) {
      BatchesFilter(p, L.draw(e, p));
      PhaseFilterRan(e, p, L, ReportLine);
      PhaseFilter(e, p, L, ReportLine);
    }
  }

  /** An epoch is its header, the train pass, and the val pass when the train pass did not abort. */
  lemma EpochUnfold(e: nat, n: nat, L: Loaders)
    ensures !PhaseRun(e, Train, L).completed ==>
              EpochRun(e, n, L) == Outcome([Header(e + 1, n)] + PhaseRun(e, Train, L).trace, false)
    ensures PhaseRun(e, Train, L).completed ==>
              EpochRun(e, n, L).trace == [Header(e + 1, n)] + PhaseRun(e, Train, L).trace + PhaseRun(e, Val, L).trace &&
              EpochRun(e, n, L).completed == PhaseRun(e, Val, L).completed
  {
    assert Phases[..1] == [Train];
    assert [Train][..0] == [];
    assert PhasesRun(e, [Train], L).trace == [] + PhaseRun(e, Train, L).trace;
  }

  /** An epoch completes exactly when both of its passes do. */
  lemma EpochCompletes(e: nat, n: nat, L: Loaders)
    ensures EpochRun(e, n, L).completed <==> PassCompletes(e, Train, L) && PassCompletes(e, Val, L)
  {
    EpochUnfold(e, n, L);
    PhaseCompletes(e, Train, L);
    PhaseCompletes(e, Val, L);
  }

  /**
   * Every epoch starts with its header and sets the train mode before the val
   * mode; the train mode is set even in the skipped first epoch, and the val
   * mode is set unless the train pass aborted.
   */
  lemma EpochModes(e: nat, n: nat, L: Loaders)
    ensures EpochRun(e, n, L).trace[0] == Header(e + 1, n)
    ensures Filter(EpochRun(e, n, L).trace, ModeSet) ==
              if PassCompletes(e, Train, L) then [Mode(Train), Mode(Val)] else [Mode(Train)]
  {
    EpochUnfold(e, n, L);
    var h, t, v := [Header(e + 1, n)], PhaseRun(e, Train, L), PhaseRun(e, Val, L);
    PhaseModes(e, Train, L);
    PhaseCompletes(e, Train, L);
    FilterSingle(Header(e + 1, n), ModeSet);
    FilterAppend(h, t.trace, ModeSet);
    assert Filter(h + t.trace, ModeSet) == [Mode(Train)];
    if t.completed {
      PhaseModes(e, Val, L);
      FilterAppend(h + t.trace, v.trace, ModeSet);
      assert Filter(EpochRun(e, n, L).trace, ModeSet) == [Mode(Train)] + [Mode(Val)];
    }
  }

  /** A run of `k` epochs completes exactly when every pass of its epochs completes. */
  lemma {:induction false} RunCompletesIff(k: nat, n: nat, L: Loaders)
    ensures Run(k, n, L).completed <==> forall e: nat, p: Phase :: e < k ==> PassCompletes(e, p, L)
  {
    if k > 0 {
      RunCompletesIff(k - 1, n, L);
      EpochCompletes(k - 1, n, L);
      if Run(k, n, L).completed {
        forall e: nat, p: Phase | e < k ensures PassCompletes(e, p, L) {
          if e == k - 1 {
            if p == Val {
              assert PassCompletes(e, Val, L);
            }
          }
        }
      }
    }
  }

  /**
   * With non-empty datasets and loaders that yield at least one batch per pass,
   * the run completes; an empty train dataset only matters from the second epoch on.
   */
  lemma RunCompletesWithData(k: nat, n: nat, L: Loaders)
    requires k <= 1 || L.trainSize > 0
    requires k == 0 || L.valSize > 0
    requires forall e: nat, p: Phase :: e < k && !Skipped(e, p) ==> L.draw(e, p) != []
    ensures Run(k, n, L).completed
  {
    RunCompletesIff(k, n, L);
  }

  /** The number of optimizer steps of the first `k` epochs: one per train batch from epoch 1 on. */
  function TrainSteps(k: nat, L: Loaders): nat
  {
    if k <= 1 then 0 else TrainSteps(k - 1, L) + |L.draw(k - 1, Train)|
  }

  /** What a completed run of `k` epochs holds of kind `kind`: that of its first k-1 epochs, then that of the last. */
  lemma RunFilter(k: nat, n: nat, L: Loaders, kind: Kind)
    requires k > 0
    requires Run(k, n, L).completed
    ensures Run(k - 1, n, L).completed && EpochRun(k - 1, n, L).completed
    ensures Filter(Run(k, n, L).trace, kind) == Filter(Run(k - 1, n, L).trace, kind) + Filter(EpochRun(k - 1, n, L).trace, kind)
  {
    FilterAppend(Run(k - 1, n, L).trace, EpochRun(k - 1, n, L).trace, kind);
  }

  /** The number of events of kind `kind` in a completed run of `k` epochs, split as in `RunFilter`. */
  lemma RunFilterCount(k: nat, n: nat, L: Loaders, kind: Kind)
    requires k > 0
    requires Run(k, n, L).completed
    ensures Run(k - 1, n, L).completed && EpochRun(k - 1, n, L).completed
    ensures |Filter(Run(k, n, L).trace, kind)| == |Filter(Run(k - 1, n, L).trace, kind)| + |Filter(EpochRun(k - 1, n, L).trace, kind)|
  {
    RunFilter(k, n, L, kind);
  }

  /** The last epoch of a completed run adds two report lines, one when it is epoch 0. */
  lemma RunReportStep(k: nat, n: nat, L: Loaders)
    requires k > 0
    requires Run(k, n, L).completed
    ensures Run(k - 1, n, L).completed
    ensures |Filter(Run(k, n, L).trace, ReportLine)| == |Filter(Run(k - 1, n, L).trace, ReportLine)| + (if k - 1 == 0 then 1 else 2)
  {
    RunFilterCount(k, n, L, ReportLine);
    EpochReportCount(k - 1, n, L);
  }

  /** A completed run of k >= 1 epochs prints 2k - 1 report lines: no train line in the first epoch. */
  lemma {:induction false} RunReportCount(k: nat, n: nat, L: Loaders)
    requires Run(k, n, L).completed
    ensures |Filter(Run(k, n, L).trace, ReportLine)| == if k == 0 then 0 else 2 * k - 1
  {
    if k > 0 {
      RunReportStep(k, n, L);
      RunReportCount(k - 1, n, L);
    }
  }

  /** The last epoch of a completed run adds its train batches' steps to those of the epochs before it. */
  lemma RunStepStep(k: nat, n: nat, L: Loaders)
    requires k > 0
    requires Run(k, n, L).completed
    ensures Run(k - 1, n, L).completed
    ensures |Filter(Run(k, n, L).trace, OptimizerStep)| == |Filter(Run(k - 1, n, L).trace, OptimizerStep)| + StepsOf(k - 1, Train, L)
  {
    RunFilterCount(k, n, L, OptimizerStep);
    EpochStepCount(k - 1, n, L);
  }

  /** A completed run steps the optimizer once per train batch of epochs 1 .. k-1, never in a val pass. */
  lemma {:induction false} RunStepCount(k: nat, n: nat, L: Loaders)
    requires Run(k, n, L).completed
    ensures |Filter(Run(k, n, L).trace, OptimizerStep)| == TrainSteps(k, L)
  {
    if k > 0 {
      RunStepStep(k, n, L);
      RunStepCount(k - 1, n, L);
      assert TrainSteps(k, L) == TrainSteps(k - 1, L) + StepsOf(k - 1, Train, L);
    }
  }

  /** A completed epoch is its header and both of its passes, the train pass having completed. */
  lemma EpochShape(e: nat, n: nat, L: Loaders)
    requires EpochRun(e, n, L).completed
    ensures PhaseRun(e, Train, L).completed
    ensures EpochRun(e, n, L).trace == [Header(e + 1, n)] + PhaseRun(e, Train, L).trace + PhaseRun(e, Val, L).trace
  {
    EpochUnfold(e, n, L);
  }

  /** What a completed epoch contributes of kind `k` comes from its two passes. */
  lemma EpochFilter(e: nat, n: nat, L: Loaders, k: Kind)
    requires k != ModeSet
    requires EpochRun(e, n, L).completed
    ensures PhaseRun(e, Train, L).completed
    ensures Filter(EpochRun(e, n, L).trace, k) ==
              Filter(PhaseRun(e, Train, L).trace, k) + Filter(PhaseRun(e, Val, L).trace, k)
  {
    EpochShape(e, n, L);
    FilterSingle(Header(e + 1, n), k);
    FilterAppend3([Header(e + 1, n)], PhaseRun(e, Train, L).trace, PhaseRun(e, Val, L).trace, k);
  }

  /** A completed epoch prints two report lines, one in epoch 0 where the train pass is skipped. */
  lemma EpochReportCount(e: nat, n: nat, L: Loaders)
    requires EpochRun(e, n, L).completed
    ensures |Filter(EpochRun(e, n, L).trace, ReportLine)| == if e == 0 then 1 else 2
  {
    EpochFilter(e, n, L, ReportLine);
    PhaseReports(e, Train, L);
    PhaseReports(e, Val, L);
  }

  /** A completed epoch steps the optimizer once per train batch, except in epoch 0. */
  lemma EpochStepCount(e: nat, n: nat, L: Loaders)
    requires EpochRun(e, n, L).completed
    ensures |Filter(EpochRun(e, n, L).trace, OptimizerStep)| == StepsOf(e, Train, L)
  {
    EpochFilter(e, n, L, OptimizerStep);
    PhaseSteps(e, Train, L);
    PhaseSteps(e, Val, L);
  }

  /** The events of the first epoch, when its val pass has data. */
  lemma FirstEpochTrace(n: nat, L: Loaders)
    requires L.valSize > 0 && L.draw(0, Val) != []
    ensures EpochRun(0, n, L).completed
    ensures EpochRun(0, n, L).trace ==
              [Header(1, n), Mode(Train), Mode(Val)] + BatchesTrace(Val, L.draw(0, Val)) +
              [Report(Val, TotalCorrects(L.draw(0, Val)), L.valSize)]
  {
    var bs := L.draw(0, Val);
    EpochCompletes(0, n, L);
    EpochShape(0, n, L);
    assert PhaseRun(0, Train, L).trace == [Mode(Train)];
    PhaseShape(0, Val, L);
    var v := [Mode(Val)] + BatchesTrace(Val, bs) + [Report(Val, TotalCorrects(bs), L.valSize)];
    assert PhaseRun(0, Val, L).trace == v;
    assert [Header(1, n)] + [Mode(Train)] + v ==
           [Header(1, n), Mode(Train), Mode(Val)] + BatchesTrace(Val, bs) + [Report(Val, TotalCorrects(bs), L.valSize)];
  }

  /**
   * The first epoch, when its val pass has data: the header, the train mode,
   * at once the val mode, the val batches (no backward pass, no step), one val report.
   */
  lemma FirstEpochSkipsTraining(n: nat, L: Loaders)
    requires L.valSize > 0 && L.draw(0, Val) != []
    ensures EpochRun(0, n, L).completed
    ensures EpochRun(0, n, L).trace ==
              [Header(1, n), Mode(Train), Mode(Val)] + BatchesTrace(Val, L.draw(0, Val)) +
              [Report(Val, TotalCorrects(L.draw(0, Val)), L.valSize)]
    ensures Filter(EpochRun(0, n, L).trace, OptimizerStep) == []
  {
    FirstEpochTrace(n, L);
    EpochStepCount(0, n, L);
  }

  /** The mode in force after the events `t`, starting in mode `m` (None: not set yet). */
  function ModeAfter(t: seq<Event>, m: Option<Phase>): Option<Phase>
  {
    if t == [] then m else ModeAfter(t[1..], if t[0].Mode? then Some(t[0].phase) else m)
  }

  /**
   * Whether `ev` may happen in mode `m`: the network and optimizer are used only
   * once a mode is set, gradients are enabled for a forward pass exactly in train
   * mode, backward passes and optimizer steps happen only in train mode, and a
   * pass's report only in that pass's mode.
   */
  predicate Fits(ev: Event, m: Option<Phase>)
  {
    match ev
    case ZeroGrad => m.Some?
    case Forward(grad) => m.Some? && grad == (m == Some(Train))
    case Backward => m == Some(Train)
    case Step => m == Some(Train)
    case Report(p, _, _) => m == Some(p)
    case _ => true
  }

  /** Every event of `t` fits the mode in force when it happens. */
  predicate InMode(t: seq<Event>, m: Option<Phase>)
  {
    t == [] || (Fits(t[0], m) && InMode(t[1..], if t[0].Mode? then Some(t[0].phase) else m))
  }

  lemma {:induction false} InModeAppend(a: seq<Event>, b: seq<Event>, m: Option<Phase>)
    ensures InMode(a + b, m) <==> InMode(a, m) && InMode(b, ModeAfter(a, m))
    ensures ModeAfter(a + b, m) == ModeAfter(b, ModeAfter(a, m))
  {
    if a == [] {
      assert a + b == b;
    } else {
      assert (a + b)[0] == a[0];
      assert (a + b)[1..] == a[1..] + b;
      InModeAppend(a[1..], b, if a[0].Mode? then Some(a[0].phase) else m);
    }
  }

  lemma BatchCallsInMode(p: Phase)
    ensures InMode(BatchCalls(p), Some(p))
    ensures ModeAfter(BatchCalls(p), Some(p)) == Some(p)
  {
    var m := Some(p);
    var fw := Forward(p == Train);
    assert [fw][1..] == [];
    assert InMode([fw], m) && ModeAfter([fw], m) == m;
    if p == Train {
      assert [Step][1..] == [] && [Backward, Step][1..] == [Step];
      assert InMode([Backward, Step], m) && ModeAfter([Backward, Step], m) == m;
      assert [fw, Backward, Step][1..] == [Backward, Step];
      assert InMode([fw, Backward, Step], m) && ModeAfter([fw, Backward, Step], m) == m;
      assert BatchCalls(p)[1..] == [fw, Backward, Step];
    } else {
      assert BatchCalls(p)[1..] == [fw];
    }
  }

  /** A batch loop of phase `p` run in mode `p` respects the mode and leaves it unchanged. */
  lemma {:induction false} BatchesInMode(p: Phase, bs: seq<Batch>)
    ensures InMode(BatchesTrace(p, bs), Some(p))
    ensures ModeAfter(BatchesTrace(p, bs), Some(p)) == Some(p)
  {
    if bs != [] {
      var init := bs[..|bs| - 1];
      BatchesInMode(p, init);
      BatchCallsInMode(p);
      InModeAppend(BatchesTrace(p, init), BatchCalls(p), Some(p));
    }
  }

  /** A pass sets its own mode first, so it respects the mode whatever mode was in force before. */
  lemma PhaseInMode(e: nat, p: Phase, L: Loaders, m: Option<Phase>)
    ensures InMode(PhaseRun(e, p, L).trace, m)
    ensures ModeAfter(PhaseRun(e, p, L).trace, m) == Some(p)
  {
    if !Skipped(e, p) {
      var bs := L.draw(e, p);
      BatchesInMode(p, bs);
      InModeAppend([Mode(p)], BatchesTrace(p, bs), m);
      if L.Size(p) != 0 {
        InModeAppend([Mode(p)] + BatchesTrace(p, bs), [Report(p, TotalCorrects(bs), L.Size(p))], m);
      }
    }
  }

  lemma EpochInMode(e: nat, n: nat, L: Loaders, m: Option<Phase>)
    ensures InMode(EpochRun(e, n, L).trace, m)
  {
    EpochUnfold(e, n, L);
    var h, t, v := [Header(e + 1, n)], PhaseRun(e, Train, L), PhaseRun(e, Val, L);
    PhaseInMode(e, Train, L, m);
    InModeAppend(h, t.trace, m);
    if t.completed {
      PhaseInMode(e, Val, L, ModeAfter(h + t.trace, m));
      InModeAppend(h + t.trace, v.trace, m);
    }
  }

  /**
   * Over a whole run, aborted or not, no network call happens before a mode is
   * set, a forward pass has gradients enabled exactly in train mode, every
   * backward pass and optimizer step happens in train mode, and every report is
   * printed in the mode of its own phase.
   */
  lemma {:induction false} RunInMode(k: nat, n: nat, L: Loaders)
    ensures InMode(Run(k, n, L).trace, None)
  {
    if k > 0 && Run(k - 1, n, L).completed {
      var r := Run(k - 1, n, L);
      RunInMode(k - 1, n, L);
      EpochInMode(k - 1, n, L, ModeAfter(r.trace, None));
      InModeAppend(r.trace, EpochRun(k - 1, n, L).trace, None);
    } else if k > 0 {
      RunInMode(k - 1, n, L);
    }
  }

  /** `epoch_acc = epoch_corrects.double() / len(dataset)`. */
  function Accuracy(corrects: nat, size: nat): real
    requires size > 0
  {
    corrects as real / size as real
  }

  /** No loader yields more samples in a pass than its dataset holds. */
  ghost predicate WithinDataset(L: Loaders)
  {
    forall e: nat, p: Phase :: Samples(L.draw(e, p)) <= L.Size(p)
  }

  /** Every report line of a pass shows an accuracy in [0, 1]. */
  lemma PhaseAccuracy(e: nat, p: Phase, L: Loaders)
    requires WithinDataset(L)
    ensures forall ev :: ev in PhaseRun(e, p, L).trace && ev.Report? ==>
              0 < ev.size && 0.0 <= Accuracy(ev.corrects, ev.size) <= 1.0
  {
    if !Skipped(e, p) {
      var bs := L.draw(e, p);
      BatchesFilter(p, bs);
      forall ev | ev in [Mode(p)] + BatchesTrace(p, bs) ensures !ev.Report? {
        if ev in BatchesTrace(p, bs) { NoReportIn(BatchesTrace(p, bs), ev); }
      }
      if L.Size(p) != 0 {
        assert TotalCorrects(bs) <= L.Size(p);
        AccuracyAtMostOne(TotalCorrects(bs), L.Size(p));
      }
    }
  }

  lemma AccuracyAtMostOne(c: nat, s: nat)
    requires 0 < s && c <= s
    ensures 0.0 <= Accuracy(c, s) <= 1.0
  {
  }

  /** An event of a trace with no report lines is not a report. */
  lemma {:induction false} NoReportIn(t: seq<Event>, ev: Event)
    requires Filter(t, ReportLine) == []
    requires ev in t
    ensures !ev.Report?
  {
    var init := t[..|t| - 1];
    FilterAppend(init, [t[|t| - 1]], ReportLine);
    assert init + [t[|t| - 1]] == t;
    FilterSingle(t[|t| - 1], ReportLine);
    if ev != t[|t| - 1] {
      NoReportIn(init, ev);
    }
  }

  /** Every report line of an epoch, aborted or not, shows an accuracy in [0, 1]. */
  lemma EpochAccuracy(e: nat, n: nat, L: Loaders)
    requires WithinDataset(L)
    ensures forall ev :: ev in EpochRun(e, n, L).trace && ev.Report? ==>
              0 < ev.size && 0.0 <= Accuracy(ev.corrects, ev.size) <= 1.0
  {
    EpochUnfold(e, n, L);
    PhaseAccuracy(e, Train, L);
    PhaseAccuracy(e, Val, L);
  }

  /** Every report line of a run, aborted or not, shows an accuracy in [0, 1]. */
  lemma {:induction false} RunAccuracy(k: nat, n: nat, L: Loaders)
    requires WithinDataset(L)
    ensures forall ev :: ev in Run(k, n, L).trace && ev.Report? ==>
              0 < ev.size && 0.0 <= Accuracy(ev.corrects, ev.size) <= 1.0
  {
    if k > 0 {
      RunAccuracy(k - 1, n, L);
      EpochAccuracy(k - 1, n, L);
    }
  }
}
