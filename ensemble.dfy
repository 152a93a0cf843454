/**
 * The orchestration of the ensemble training run (ensenble_train.py lines
 * 90-93 and 214-343): the run directory, then for every epoch the five
 * slots in turn, each with its training pass, validation pass, best-state
 * update, checkpoint saves and validation log, and an early-stop signal
 * that ends the current epoch's round of slots.
 */
module Ensemble {
  import opened Wrappers
  import opened Events
  import opened Metrics
  import opened BestState
  import RunDir

  /** The five models trained side by side (`for i in range(5)`, line 218). */
  const Slots := 5

  type SlotIndex = i: nat | i < Slots

  /** One run of one slot in one epoch. */
  datatype Visit = Visit(epoch: nat, slot: SlotIndex)

  /** The command-line settings the loop reads. */
  datatype Config = Config(epochs: nat, batchSize: Pos, validBatchSize: Pos, logInterval: Pos)

  /**
   * What the loop takes from code outside the model: the batches the
   * loaders of slot `i` yield in epoch `e` (already passed through the
   * model), macro-F1, and the verdict of `EarlyStopping()(val_loss, model)`.
   */
  datatype Oracles = Oracles(
    train: (nat, SlotIndex) -> Batches,
    valid: (nat, SlotIndex) -> Batches,
    f1: (seq<int>, seq<int>) -> real,
    earlyStop: (nat, SlotIndex, real) -> bool)

  /** Every first validation batch is large enough for `grid_image(..., n=16)`. */
  ghost predicate FiguresFit(o: Oracles) {
    forall e: nat, i: SlotIndex :: |o.valid(e, i)[0].labels| >= FigureSize
  }

  /** What the validation pass of visit `v` reports (lines 315-317). */
  function Observe(c: Config, o: Oracles, v: Visit): Observation {
    var bs := o.valid(v.epoch, v.slot);
    Observation(Accuracy(bs, c.validBatchSize), MeanLoss(bs), o.f1(AllPreds(bs, |bs|), AllLabels(bs, |bs|)))
  }

  /** Line 340: the early-stop verdict after slot `i` of epoch `e`. */
  predicate Stops(o: Oracles, e: nat, i: SlotIndex) {
    o.earlyStop(e, i, MeanLoss(o.valid(e, i)))
  }

  // ---------------------------------------------------------------------
  // The visit schedule (lines 217-218 and 340-343)
  // ---------------------------------------------------------------------

  /** How far epoch `e` gets from slot `i` on: through the first slot that signals a stop, else all five. */
  function SlotsRun(o: Oracles, e: nat, i: nat): (n: nat)
    requires i <= Slots
    ensures i <= n <= Slots
    decreases Slots - i
  {
    if i == Slots then Slots else if Stops(o, e, i) then i + 1 else SlotsRun(o, e, i + 1)
  }

  /** Slots `0` to `n - 1` of epoch `e`, in order. */
  function EpochVisits(e: nat, n: nat): (vs: seq<Visit>)
    requires n <= Slots
    ensures |vs| == n
  {
    seq(n, j requires 0 <= j < n => Visit(e, j))
  }

  /** The visits of the first `epochs` epochs, in the order the loops make them. */
  function Schedule(o: Oracles, epochs: nat): seq<Visit> {
    if epochs == 0 then []
    else Schedule(o, epochs - 1) + EpochVisits(epochs - 1, SlotsRun(o, epochs - 1, 0))
  }

  /** Lexicographic order on (epoch, slot). */
  predicate Before(a: Visit, b: Visit) {
    a.epoch < b.epoch || (a.epoch == b.epoch && a.slot < b.slot)
  }

  /** An epoch runs every slot before its first stop signal, and stops right after it. */
  lemma {:induction false} SlotsRunIsFirstStop(o: Oracles, e: nat, i: nat)
    requires i < Slots
    ensures i < SlotsRun(o, e, i)
    ensures forall j: nat :: i <= j < SlotsRun(o, e, i) - 1 ==> !Stops(o, e, j)
    ensures SlotsRun(o, e, i) < Slots ==> Stops(o, e, SlotsRun(o, e, i) - 1)
    decreases Slots - i
  {
    if !Stops(o, e, i) && i + 1 < Slots {
      SlotsRunIsFirstStop(o, e, i + 1);
    }
  }

  lemma InEpochVisits(e: nat, n: nat, v: Visit)
    requires n <= Slots
    ensures v in EpochVisits(e, n) <==> v.epoch == e && v.slot < n
  {
    if v.epoch == e && v.slot < n {
      assert EpochVisits(e, n)[v.slot] == v;
    }
  }

  /** Slot `i` of epoch `e` is visited exactly when `e` is one of the epochs run and no earlier slot of `e` signalled a stop. */
  lemma {:induction false} VisitedIff(o: Oracles, n: nat, v: Visit)
    ensures v in Schedule(o, n) <==> v.epoch < n && v.slot < SlotsRun(o, v.epoch, 0)
  {
    if n > 0 {
      VisitedIff(o, n - 1, v);
      InEpochVisits(n - 1, SlotsRun(o, n - 1, 0), v);
    }
  }

  /** Slot 0 is visited in every epoch: a stop signal never carries over to the next epoch. */
  lemma SlotZeroEveryEpoch(o: Oracles, n: nat, e: nat)
    requires e < n
    ensures Visit(e, 0) in Schedule(o, n)
  {
    SlotsRunIsFirstStop(o, e, 0);
    VisitedIff(o, n, Visit(e, 0));
  }

  /** A stop signal at a visited slot `i` skips slots `i + 1` to 4 of that epoch. */
  lemma StopSkipsRestOfEpoch(o: Oracles, n: nat, e: nat, i: SlotIndex, j: SlotIndex)
    requires Visit(e, i) in Schedule(o, n) && Stops(o, e, i) && i < j
    ensures Visit(e, j) !in Schedule(o, n)
  {
    VisitedIff(o, n, Visit(e, i));
    VisitedIff(o, n, Visit(e, j));
    SlotsRunIsFirstStop(o, e, 0);
  }

  /** Visits come in strictly increasing (epoch, slot) order, so no slot runs twice in an epoch. */
  lemma {:induction false} ScheduleOrdered(o: Oracles, n: nat, a: nat, b: nat)
    requires a < b < |Schedule(o, n)|
    ensures Before(Schedule(o, n)[a], Schedule(o, n)[b])
  {
    var prev := Schedule(o, n - 1);
    var last := EpochVisits(n - 1, SlotsRun(o, n - 1, 0));
    assert Schedule(o, n) == prev + last;
    if b < |prev| {
      ScheduleOrdered(o, n - 1, a, b);
      assert Schedule(o, n)[a] == prev[a] && Schedule(o, n)[b] == prev[b];
    } else if a < |prev| {
      VisitedIff(o, n - 1, prev[a]);
      assert Schedule(o, n)[a] == prev[a] && Schedule(o, n)[b] == last[b - |prev|];
    } else {
      assert Schedule(o, n)[a] == last[a - |prev|] && Schedule(o, n)[b] == last[b - |prev|];
    }
  }

  ghost predicate NoStops(o: Oracles, n: nat) {
    forall e: nat, i: SlotIndex :: e < n ==> !Stops(o, e, i)
  }

  lemma EpochRunsAll(o: Oracles, e: nat)
    requires forall i: SlotIndex :: !Stops(o, e, i)
    ensures SlotsRun(o, e, 0) == Slots
  {
    assert SlotsRun(o, e, 4) == Slots;
    assert SlotsRun(o, e, 3) == Slots;
    assert SlotsRun(o, e, 2) == Slots;
    assert SlotsRun(o, e, 1) == Slots;
  }

  /** Without a stop signal there are `5 * epochs` visits... */
  lemma {:induction false} NoStopLength(o: Oracles, n: nat)
    requires NoStops(o, n)
    ensures |Schedule(o, n)| == 5 * n
  {
    if n > 0 {
      assert NoStops(o, n - 1);
      NoStopLength(o, n - 1);
      EpochRunsAll(o, n - 1);
    }
  }

  /** Later epochs only append visits: the schedule of `m` epochs is a prefix of that of `n >= m`. */
  lemma {:induction false} SchedulePrefix(o: Oracles, m: nat, n: nat)
    requires m <= n
    ensures Schedule(o, m) <= Schedule(o, n)
  {
    if m < n {
      SchedulePrefix(o, m, n - 1);
    }
  }

  lemma FullEpochEntry(o: Oracles, e: nat, i: SlotIndex)
    requires |Schedule(o, e)| == 5 * e && SlotsRun(o, e, 0) == Slots
    ensures |Schedule(o, e + 1)| == 5 * e + 5
    ensures Schedule(o, e + 1)[5 * e + i] == Visit(e, i)
  {
    var last := EpochVisits(e, 5);
    assert Schedule(o, e + 1) == Schedule(o, e) + last;
    assert last[i] == Visit(e, i);
  }

  /** ... and visit `5 * e + i` is slot `i` of epoch `e`: every (epoch, slot) pair in lexicographic order. */
  lemma NoStopSchedule(o: Oracles, n: nat, e: nat, i: SlotIndex)
    requires NoStops(o, n) && e < n
    ensures |Schedule(o, n)| == 5 * n
    ensures Schedule(o, n)[5 * e + i] == Visit(e, i)
  {
    NoStopLength(o, n);
    assert NoStops(o, e);
    NoStopLength(o, e);
    EpochRunsAll(o, e);
    FullEpochEntry(o, e, i);
    SchedulePrefix(o, e + 1, n);
  }

  // ---------------------------------------------------------------------
  // The state the loop carries from visit to visit
  // ---------------------------------------------------------------------

  /** `best_val_accs`, `best_val_losses`, `best_f1_scores` and everything logged or saved so far. */
  datatype RunState = RunState(bestAccs: seq<real>, bestLosses: seq<Bound>, bestF1s: seq<real>, log: seq<Event>)

  predicate Valid(s: RunState) {
    |s.bestAccs| == Slots && |s.bestLosses| == Slots && |s.bestF1s| == Slots
  }

  /** Lines 214-216. */
  function Start(): (s: RunState)
    ensures Valid(s) && s.log == []
    ensures forall i: SlotIndex :: BestOf(s, i) == Initial()
  {
    RunState([0.0, 0.0, 0.0, 0.0, 0.0], [Infinite, Infinite, Infinite, Infinite, Infinite], [0.0, 0.0, 0.0, 0.0, 0.0], [])
  }

  /** Slot `i`'s entries of the three lists (lines 225-227). */
  function BestOf(s: RunState, i: SlotIndex): SlotBest
    requires Valid(s)
  {
    SlotBest(s.bestAccs[i], s.bestLosses[i], s.bestF1s[i])
  }

  /**
   * What visit `v` logs and saves, in order: the training window's log, the
   * "best" checkpoint if `saveBest`, the "last" checkpoint, the three
   * validation scalars and the figure, all at step `epoch`.
   */
  function SlotEvents(c: Config, o: Oracles, v: Visit, saveBest: bool): seq<Event> {
    TrainLog(v.epoch, o.train(v.epoch, v.slot), c.batchSize, c.logInterval)
      + SaveEvents(v.slot, saveBest)
      + ReportEvents(Observe(c, o, v), v.epoch)
  }

  /** The saves of a visit of slot `i` (lines 325 and 328). */
  function SaveEvents(i: SlotIndex, saveBest: bool): seq<Event> {
    (if saveBest then [Checkpoint(i, Best)] else []) + [Checkpoint(i, Last)]
  }

  /** The validation scalars and the figure of a visit (lines 334-337). */
  function ReportEvents(obs: Observation, epoch: nat): seq<Event> {
    [Scalar(ValLossTag, obs.loss, epoch), Scalar(ValAccuracyTag, obs.acc, epoch),
     Scalar(ValF1Tag, obs.f1, epoch), Figure(ResultsTag, epoch)]
  }

  /** One visit of the inner loop body (lines 219-343). */
  function Step(c: Config, o: Oracles, s: RunState, v: Visit): (r: RunState)
    requires Valid(s)
    ensures Valid(r)
  {
    var b := BestOf(s, v.slot);
    var obs := Observe(c, o, v);
    var nb := Update(b, obs);
    RunState(
      s.bestAccs[v.slot := nb.acc], s.bestLosses[v.slot := nb.loss], s.bestF1s[v.slot := nb.f1],
      s.log + SlotEvents(c, o, v, SavesBest(b, obs)))
  }

  /** The state after the visits `vs`, from the state `s`. */
  function Run(c: Config, o: Oracles, s: RunState, vs: seq<Visit>): (r: RunState)
    requires Valid(s)
    ensures Valid(r)
  {
    if vs == [] then s else Step(c, o, Run(c, o, s, vs[..|vs| - 1]), vs[|vs| - 1])
  }

  /** The state after the visits `vs`, from the start state. */
  function RunOver(c: Config, o: Oracles, vs: seq<Visit>): (s: RunState)
    ensures Valid(s)
  {
    Run(c, o, Start(), vs)
  }

  /** The validation reports of slot `i` among the visits `vs`, in order. */
  function History(c: Config, o: Oracles, vs: seq<Visit>, i: SlotIndex): seq<Observation> {
    if vs == [] then []
    else History(c, o, vs[..|vs| - 1], i) + (if vs[|vs| - 1].slot == i then [Observe(c, o, vs[|vs| - 1])] else [])
  }

  lemma RunOverLast(c: Config, o: Oracles, vs: seq<Visit>, v: Visit)
    ensures RunOver(c, o, vs + [v]) == Step(c, o, RunOver(c, o, vs), v)
    ensures History(c, o, vs + [v], v.slot) == History(c, o, vs, v.slot) + [Observe(c, o, v)]
  {
    assert (vs + [v])[..|vs|] == vs;
  }

  /** Running `a` and then `b` is running `a + b`: the loop may hand its state from epoch to epoch. */
  lemma {:induction false} RunAppend(c: Config, o: Oracles, s: RunState, a: seq<Visit>, b: seq<Visit>)
    requires Valid(s)
    ensures Run(c, o, Run(c, o, s, a), b) == Run(c, o, s, a + b)
  {
    if b != [] {
      var p := b[..|b| - 1];
      RunAppend(c, o, s, a, p);
      assert (a + b)[..|a + b| - 1] == a + p;
      assert (a + b)[|a + b| - 1] == b[|b| - 1];
    } else {
      assert a + b == a;
    }
  }

  /** A visit of slot `i` changes only index `i` of the three lists. */
  lemma StepKeepsOtherSlots(c: Config, o: Oracles, s: RunState, v: Visit, j: SlotIndex)
    requires Valid(s) && j != v.slot
    ensures BestOf(Step(c, o, s, v), j) == BestOf(s, j)
  {
  }

  /**
   * Each slot's entries of the three lists are its best state replayed over
   * its own validation reports: the visits of other slots leave them alone.
   */
  lemma {:induction false} SlotIsReplay(c: Config, o: Oracles, vs: seq<Visit>, i: SlotIndex)
    ensures BestOf(RunOver(c, o, vs), i) == Replay(History(c, o, vs, i))
  {
    if vs != [] {
      var p := vs[..|vs| - 1];
      var v := vs[|vs| - 1];
      assert vs == p + [v];
      SlotIsReplay(c, o, p, i);
      RunOverLast(c, o, p, v);
      if v.slot == i {
        ReplayLast(History(c, o, p, i), Observe(c, o, v));
      } else {
        StepKeepsOtherSlots(c, o, RunOver(c, o, p), v, i);
        assert History(c, o, vs, i) == History(c, o, p, i);
      }
    }
  }

  /** What one more visit appends to the log, with its "best" save decided by the slot's history. */
  lemma VisitLog(c: Config, o: Oracles, vs: seq<Visit>, v: Visit)
    ensures RunOver(c, o, vs + [v]).log
         == RunOver(c, o, vs).log + SlotEvents(c, o, v, SavesBest(Replay(History(c, o, vs, v.slot)), Observe(c, o, v)))
  {
    RunOverLast(c, o, vs, v);
    SlotIsReplay(c, o, vs, v.slot);
  }

  /**
   * Every visit saves the slot's "last" checkpoint, and saves its "best"
   * checkpoint exactly when its F1 is positive and strictly above every
   * earlier F1 of the same slot.
   */
  lemma VisitSaves(c: Config, o: Oracles, vs: seq<Visit>, v: Visit, saveBest: bool)
    requires saveBest == SavesBest(Replay(History(c, o, vs, v.slot)), Observe(c, o, v))
    ensures Checkpoint(v.slot, Last) in SlotEvents(c, o, v, saveBest)
    ensures var h := History(c, o, vs, v.slot);
            var f := Observe(c, o, v).f1;
            (Checkpoint(v.slot, Best) in SlotEvents(c, o, v, saveBest) <==>
             f > 0.0 && forall j :: 0 <= j < |h| ==> h[j].f1 < f)
  {
    var h := History(c, o, vs, v.slot);
    var h' := h + [Observe(c, o, v)];
    assert h'[..|h|] == h;
    SaveFlagIffNewMax(h', |h|);
    var events := SlotEvents(c, o, v, saveBest);
    var trainLog := TrainLog(v.epoch, o.train(v.epoch, v.slot), c.batchSize, c.logInterval);
    TrainLogIsScalars(v.epoch, o.train(v.epoch, v.slot), c.batchSize, c.logInterval);
    assert Checkpoint(v.slot, Best) !in trainLog;
  }

  /**
   * The files a visit writes under the run directory (lines 325 and 328):
   * `model{i}_best.pth` when it saves "best", then always `model{i}_last.pth`.
   */
  lemma VisitFiles(c: Config, o: Oracles, v: Visit, saveBest: bool, saveDir: string)
    ensures SavedFiles(saveDir, SlotEvents(c, o, v, saveBest))
         == (if saveBest then [CheckpointFile(saveDir, v.slot, Best)] else []) + [CheckpointFile(saveDir, v.slot, Last)]
  {
    var obs := Observe(c, o, v);
    var bs := o.train(v.epoch, v.slot);
    var trainLog := TrainLog(v.epoch, bs, c.batchSize, c.logInterval);
    var saves := SaveEvents(v.slot, saveBest);
    var reports := ReportEvents(obs, v.epoch);
    TrainLogIsScalars(v.epoch, bs, c.batchSize, c.logInterval);
    SavedFilesNone(saveDir, trainLog);
    SaveEventsFiles(saveDir, v.slot, saveBest);
    ReportEventsFiles(saveDir, obs, v.epoch);
    SavedFilesAppend(saveDir, trainLog, saves);
    SavedFilesAppend(saveDir, trainLog + saves, reports);
  }

  lemma SaveEventsFiles(saveDir: string, i: SlotIndex, saveBest: bool)
    ensures SavedFiles(saveDir, SaveEvents(i, saveBest))
         == (if saveBest then [CheckpointFile(saveDir, i, Best)] else []) + [CheckpointFile(saveDir, i, Last)]
  {
    var best, last := [Checkpoint(i, Best)], [Checkpoint(i, Last)];
    assert best[..0] == [] && last[..0] == [];
    assert SavedFiles(saveDir, best) == [CheckpointFile(saveDir, i, Best)];
    assert SavedFiles(saveDir, last) == [CheckpointFile(saveDir, i, Last)];
    if saveBest {
      SavedFilesAppend(saveDir, best, last);
    } else {
      assert SaveEvents(i, saveBest) == last;
    }
  }

  lemma ReportEventsFiles(saveDir: string, obs: Observation, epoch: nat)
    ensures SavedFiles(saveDir, ReportEvents(obs, epoch)) == []
  {
    SavedFilesNone(saveDir, ReportEvents(obs, epoch));
  }

  // ---------------------------------------------------------------------
  // The loops
  // ---------------------------------------------------------------------

  lemma ExtendEpoch(c: Config, o: Oracles, s: RunState, e: nat, i: SlotIndex)
    requires Valid(s)
    ensures Run(c, o, s, EpochVisits(e, i + 1)) == Step(c, o, Run(c, o, s, EpochVisits(e, i)), Visit(e, i))
  {
    assert EpochVisits(e, i + 1)[..i] == EpochVisits(e, i);
  }

  /**
   * The body of the loop over slots (lines 219-343) for slot `i` of epoch
   * `epoch`: both passes, the best-state update at index `i`, the saves and
   * the validation log, and the early-stop verdict.
   */
  method VisitSlot(c: Config, o: Oracles, bestValAccs: seq<real>, bestValLosses: seq<Bound>, bestF1Scores: seq<real>,
                   log: seq<Event>, epoch: nat, i: SlotIndex)
    returns (accs: seq<real>, losses: seq<Bound>, f1s: seq<real>, log': seq<Event>, earlyStop: bool)
    requires Valid(RunState(bestValAccs, bestValLosses, bestF1Scores, log))
    requires |o.valid(epoch, i)[0].labels| >= FigureSize
    ensures RunState(accs, losses, f1s, log') == Step(c, o, RunState(bestValAccs, bestValLosses, bestF1Scores, log), Visit(epoch, i))
    ensures earlyStop == Stops(o, epoch, i)
  {
    var bestValAcc, bestValLoss, bestF1Score := bestValAccs[i], bestValLosses[i], bestF1Scores[i];
    var trainLoss, trainAcc, trainF1, trainLog := TrainEpoch(epoch, o.train(epoch, i), c.batchSize, c.logInterval, o.f1);
    log' := log + trainLog;
    var valLoss, valAcc, valF1 := Validate(o.valid(epoch, i), c.validBatchSize, o.f1);
    bestValAcc := MaxReal(bestValAcc, valAcc);
    bestValLoss := MinBound(bestValLoss, valLoss);
    accs := bestValAccs[i := bestValAcc];
    losses := bestValLosses[i := bestValLoss];
    f1s := bestF1Scores;
    if valF1 > bestF1Score {
      log' := log' + [Checkpoint(i, Best)];
      f1s := bestF1Scores[i := valF1];
      bestF1Score := valF1;
    }
    log' := log' + [Checkpoint(i, Last)];
    log' := log' + [Scalar(ValLossTag, valLoss, epoch), Scalar(ValAccuracyTag, valAcc, epoch),
                    Scalar(ValF1Tag, valF1, epoch), Figure(ResultsTag, epoch)];
    earlyStop := o.earlyStop(epoch, i, valLoss);
  }

  /**
   * One round of the loop over slots (lines 218-343) in epoch `epoch`:
   * slot after slot until the first early-stop verdict, whose `break` ends
   * this round only.
   */
  method RunEpoch(c: Config, o: Oracles, bestValAccs: seq<real>, bestValLosses: seq<Bound>, bestF1Scores: seq<real>,
                  log: seq<Event>, epoch: nat)
    returns (accs: seq<real>, losses: seq<Bound>, f1s: seq<real>, log': seq<Event>)
    requires FiguresFit(o)
    requires Valid(RunState(bestValAccs, bestValLosses, bestF1Scores, log))
    ensures RunState(accs, losses, f1s, log')
         == Run(c, o, RunState(bestValAccs, bestValLosses, bestF1Scores, log), EpochVisits(epoch, SlotsRun(o, epoch, 0)))
  {
    ghost var s0 := RunState(bestValAccs, bestValLosses, bestF1Scores, log);
    accs, losses, f1s, log' := bestValAccs, bestValLosses, bestF1Scores, log;
    assert EpochVisits(epoch, 0) == [];
    for i := 0 to Slots
      invariant SlotsRun(o, epoch, i) == SlotsRun(o, epoch, 0)
      invariant RunState(accs, losses, f1s, log') == Run(c, o, s0, EpochVisits(epoch, i))
    {
      var earlyStop;
      accs, losses, f1s, log', earlyStop := VisitSlot(c, o, accs, losses, f1s, log', epoch, i);
      ExtendEpoch(c, o, s0, epoch, i);
      if earlyStop {
        break;
      }
    }
  }

  /**
   * The run (lines 90-93 and 214-343): the run directory, the three
   * best-state lists, and one round of slots per epoch.
   */
  method Train(c: Config, o: Oracles, modelDir: string, name: string, existing: seq<string>)
    returns (saveDir: string, bestValAccs: seq<real>, bestValLosses: seq<Bound>, bestF1Scores: seq<real>, log: seq<Event>)
    requires FiguresFit(o)
    ensures saveDir == RunDir.IncrementPathAsWritten(RunDir.Join(modelDir, name), existing, false)
    ensures RunState(bestValAccs, bestValLosses, bestF1Scores, log) == RunOver(c, o, Schedule(o, c.epochs))
  {
    saveDir := RunDir.IncrementPathAsWritten(RunDir.Join(modelDir, name), existing, false);
    bestValAccs := [0.0, 0.0, 0.0, 0.0, 0.0];
    bestValLosses := [Infinite, Infinite, Infinite, Infinite, Infinite];
    bestF1Scores := [0.0, 0.0, 0.0, 0.0, 0.0];
    log := [];
    for epoch := 0 to c.epochs
      invariant RunState(bestValAccs, bestValLosses, bestF1Scores, log) == RunOver(c, o, Schedule(o, epoch))
    {
      bestValAccs, bestValLosses, bestF1Scores, log :=
        RunEpoch(c, o, bestValAccs, bestValLosses, bestF1Scores, log, epoch);
      RunAppend(c, o, Start(), Schedule(o, epoch), EpochVisits(epoch, SlotsRun(o, epoch, 0)));
    }
  }

  // ---------------------------------------------------------------------
  // get_lr (lines 35-37)
  // ---------------------------------------------------------------------

  datatype ParamGroup = ParamGroup(lr: real)

  /** The learning rate of the optimizer's first parameter group; none when it has no groups. */
  function GetLr(groups: seq<ParamGroup>): (r: Option<real>)
    ensures r.None? <==> groups == []
    ensures groups != [] ==> r.value == groups[0].lr
  {
    if groups == [] then None else Some(groups[0].lr)
  }

  /** Only the first group counts: groups after it never change the answer. */
  lemma GetLrIgnoresLaterGroups(groups: seq<ParamGroup>, rest: seq<ParamGroup>)
    requires groups != []
    ensures GetLr(groups + rest) == GetLr(groups)
  {
  }
}
