/**
 * The epoch/phase schedule of `train_model` (utils.py). The network, the loss
 * function and the optimizer are opaque: the model records, as a trace of
 * events, which of their operations are invoked and in which order, together
 * with the report lines and the integer count of correct predictions behind them.
 */
module Training {

  datatype Phase = Train | Val

  /** The phase order of the loop `for phase in ["train","val"]`. */
  const Phases: seq<Phase> := [Train, Val]

  /** One sample of a batch: the predicted class (the argmax of the outputs) and the true label. */
  datatype Scored = Scored(pred: int, truth: int)

  type Batch = seq<Scored>

  /**
   * What the loop sees of `dataloaders_dict`: the batches the loader of a phase
   * yields in a given epoch, and the length of each phase's dataset.
   */
  datatype Loaders = Loaders(draw: (nat, Phase) -> seq<Batch>, trainSize: nat, valSize: nat)
  {
    function Size(p: Phase): nat
    {
      if p == Train then trainSize else valSize
    }
  }

  datatype Event =
    | Header(epoch: nat, total: nat)                 // the "Epoch<k>/<N>" and dashes lines
    | Mode(phase: Phase)                             // net.train() or net.eval()
    | ZeroGrad                                       // optimizer.zero_grad()
    | Forward(grad: bool)                            // net(inputs), the criterion and the argmax, under set_grad_enabled(grad)
    | Backward                                       // loss.backward()
    | Step                                           // optimizer.step()
    | Report(phase: Phase, corrects: nat, size: nat) // "<phase> Loss:.. Acc:..", Acc = corrects / size

  /** The events a run produced, and whether it ran to the end (false: the pass's division or its `.double()` raised, utils.py:119-120). */
  datatype Outcome = Outcome(trace: seq<Event>, completed: bool)

  /** `torch.sum(preds == labels)`: the number of samples of `b` predicted correctly. */
  function Corrects(b: Batch): (c: nat)
    ensures c <= |b|
    ensures c == |b| <==> forall k :: 0 <= k < |b| ==> b[k].pred == b[k].truth
    ensures c == 0 <==> forall k :: 0 <= k < |b| ==> b[k].pred != b[k].truth
  {
    if b == [] then 0
    else (if b[0].pred == b[0].truth then 1 else 0) + Corrects(b[1..])
  }

  /** The number of samples in the batches `bs`. */
  function Samples(bs: seq<Batch>): nat
  {
    if bs == [] then 0 else Samples(bs[..|bs| - 1]) + |bs[|bs| - 1]|
  }

  /** `epoch_corrects` after the batches `bs`, starting from its reset value 0. */
  function TotalCorrects(bs: seq<Batch>): (c: nat)
    ensures c <= Samples(bs)
  {
    if bs == [] then 0 else TotalCorrects(bs[..|bs| - 1]) + Corrects(bs[|bs| - 1])
  }

  /** The calls one batch makes: a train batch also back-propagates and steps the optimizer. */
  function BatchCalls(p: Phase): seq<Event>
  {
    if p == Train then [ZeroGrad, Forward(true), Backward, Step] else [ZeroGrad, Forward(false)]
  }

  function BatchesTrace(p: Phase, bs: seq<Batch>): seq<Event>
  {
    if bs == [] then [] else BatchesTrace(p, bs[..|bs| - 1]) + BatchCalls(p)
  }

  /** Epoch 0's train phase is skipped after its mode is set. */
  predicate Skipped(e: nat, p: Phase)
  {
    e == 0 && p == Train
  }

  /**
   * Whether a pass gets through its two divisions: the skipped pass makes none;
   * any other needs a non-empty dataset (`epoch_loss / 0` raises) and at least
   * one batch (otherwise `epoch_corrects` is still the plain integer 0, which has
   * no `.double()`).
   */
  predicate PassCompletes(e: nat, p: Phase, L: Loaders)
  {
    Skipped(e, p) || (L.Size(p) > 0 && L.draw(e, p) != [])
  }

  /**
   * One (epoch, phase) pass: set the mode; unless skipped, run every batch,
   * then divide by the dataset length and report, or abort the run.
   */
  function PhaseRun(e: nat, p: Phase, L: Loaders): Outcome
  {
    if Skipped(e, p) then Outcome([Mode(p)], true)
    else
      var bs := L.draw(e, p);
      var ran := [Mode(p)] + BatchesTrace(p, bs);
      if L.Size(p) == 0 || bs == [] then Outcome(ran, false)
      else Outcome(ran + [Report(p, TotalCorrects(bs), L.Size(p))], true)
  }

  /** The phases `ps` of epoch `e`, in order, up to the first that aborts. */
  function PhasesRun(e: nat, ps: seq<Phase>, L: Loaders): Outcome
  {
    if ps == [] then Outcome([], true)
    else
      var r := PhasesRun(e, ps[..|ps| - 1], L);
      if !r.completed then r
      else
        var q := PhaseRun(e, ps[|ps| - 1], L);
        Outcome(r.trace + q.trace, q.completed)
  }

  /** Epoch `e` (0-based) of an `n`-epoch run: its header, then both phases in order. */
  function EpochRun(e: nat, n: nat, L: Loaders): Outcome
  {
    var r := PhasesRun(e, Phases, L);
    Outcome([Header(e + 1, n)] + r.trace, r.completed)
  }

  /** The first `k` epochs of an `n`-epoch run, up to the first abort. */
  function Run(k: nat, n: nat, L: Loaders): Outcome
  {
    if k == 0 then Outcome([], true)
    else
      var r := Run(k - 1, n, L);
      if !r.completed then r
      else
        var ep := EpochRun(k - 1, n, L);
        Outcome(r.trace + ep.trace, ep.completed)
  }

  /**
   * Lines 91-122 for one (epoch, phase): set the mode, reset the accumulator,
   * skip epoch 0's training, run the batches, then divide and report.
   */
  method RunPhase(epoch: nat, phase: Phase, L: Loaders) returns (events: seq<Event>, completed: bool)
    ensures Outcome(events, completed) == PhaseRun(epoch, phase, L)
  {
    events := [Mode(phase)];
    var epochCorrects: nat := 0;
    if epoch == 0 && phase == Train {
      return events, true;
    }
    var batches := L.draw(epoch, phase);
    for j := 0 to |batches|
      invariant events == [Mode(phase)] + BatchesTrace(phase, batches[..j])
      invariant epochCorrects == TotalCorrects(batches[..j])
    {
      assert batches[..j + 1][..j] == batches[..j];
      events := events + [ZeroGrad, Forward(phase == Train)];
      if phase == Train {
        events := events + [Backward, Step];
      }
      assert events == [Mode(phase)] + BatchesTrace(phase, batches[..j]) + BatchCalls(phase);
      epochCorrects := epochCorrects + Corrects(batches[j]);
    }
    assert batches[..|batches|] == batches;
    assert !Skipped(epoch, phase);
    var size := L.Size(phase);
    if size == 0 {
      // `epoch_loss / len(dataset)` raises ZeroDivisionError
      return events, false;
    }
    if |batches| == 0 {
      // `epoch_corrects` was never replaced by a tensor: `(0).double()` raises AttributeError
      return events, false;
    }
    events := events + [Report(phase, epochCorrects, size)];
    completed := true;
  }

  /** Lines 87-122 for one epoch: print the header, then the phases in order. */
  method RunEpoch(epoch: nat, numEpochs: nat, L: Loaders) returns (events: seq<Event>, completed: bool)
    ensures Outcome(events, completed) == EpochRun(epoch, numEpochs, L)
  {
    events := [Header(epoch + 1, numEpochs)];
    for i := 0 to |Phases|
      invariant PhasesRun(epoch, Phases[..i], L).completed
      invariant events == [Header(epoch + 1, numEpochs)] + PhasesRun(epoch, Phases[..i], L).trace
    {
      assert Phases[..i + 1][..i] == Phases[..i];
      ghost var done := PhasesRun(epoch, Phases[..i], L);
      var phaseEvents, ok := RunPhase(epoch, Phases[i], L);
      assert PhasesRun(epoch, Phases[..i + 1], L) == Outcome(done.trace + phaseEvents, ok);
      events := events + phaseEvents;
      if !ok {
        assert !PhasesRun(epoch, Phases[..i + 1], L).completed;
        PhasesStayAborted(epoch, Phases[..i + 1], Phases[i + 1..], L);
        assert Phases[..i + 1] + Phases[i + 1..] == Phases;
        return events, false;
      }
    }
    assert Phases[..|Phases|] == Phases;
    completed := true;
  }

  /**
   * Lines 84-122: the epoch loop. Every epoch appends its events; the first
   * abort ends the whole run, which is then `Run` of all epochs.
   */
  method TrainModel(numEpochs: nat, L: Loaders) returns (events: seq<Event>, completed: bool)
    ensures Outcome(events, completed) == Run(numEpochs, numEpochs, L)
  {
    events, completed := [], true;
    for epoch := 0 to numEpochs
      invariant completed
      invariant Outcome(events, completed) == Run(epoch, numEpochs, L)
    {
      var epochEvents, ok := RunEpoch(epoch, numEpochs, L);
      events := events + epochEvents;
      if !ok {
        RunStaysAborted(epoch + 1, numEpochs, numEpochs, L);
        return events, false;
      }
    }
  }

  /** Once a phase aborts, the later phases of the epoch do not run. */
  lemma {:induction false} PhasesStayAborted(e: nat, ps: seq<Phase>, more: seq<Phase>, L: Loaders)
    requires !PhasesRun(e, ps, L).completed
    ensures PhasesRun(e, ps + more, L) == PhasesRun(e, ps, L)
  {
    if more != [] {
      var init := more[..|more| - 1];
      PhasesStayAborted(e, ps, init, L);
      assert (ps + more)[..|ps + more| - 1] == ps + init;
    } else {
      assert ps + more == ps;
    }
  }

  /** Once aborted, a run gains no further events. */
  lemma {:induction false} RunStaysAborted(k: nat, m: nat, n: nat, L: Loaders)
    requires k <= m
    requires !Run(k, n, L).completed
    ensures Run(m, n, L) == Run(k, n, L)
  {
    if m > k {
      RunStaysAborted(k, m - 1, n, L);
    }
  }
}
