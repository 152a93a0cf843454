# Ensemble training bookkeeping, modelled and verified in Dafny

This project models the bookkeeping of `ensenble_train.py`, the training
script of an ensemble of five image classifiers. The neural network, the loss,
the optimiser and all I/O are replaced by abstract per-batch inputs and by
events. What remains is modelled:

- **Run directory** (`increment_path`, module `RunDir`; `Numerals` for the
  decimal suffix): the run directory gets a numeric suffix when a directory of
  that name already exists.
- **One slot's training and validation passes** (module `Metrics`):
  - the running totals;
  - the logging window, flushed every `log_interval` batches;
  - the epoch means and the label lists handed to macro-F1.
- **Per-slot best state** (module `BestState`): a running maximum of the
  validation accuracy, a running minimum of the validation loss from infinity,
  and a best F1 that is replaced only on a strict improvement. That
  improvement is the only thing that writes the slot's "best" checkpoint.
- **The epoch × slot loops** (module `Ensemble`): an early-stop verdict
  `break`s out of the loop over slots, so it ends the current epoch's round of
  slots and nothing more. Also here is `get_lr`.

What the run leaves behind is a sequence of events (module `Events`). Logger
scalars and figures are kept with their tags and steps, and checkpoint saves
with their slot and kind. `Events.CheckpointFile` gives the file name a save
writes.

Four behaviours of the code are worth stating plainly. The model follows the
code in each:

- **`increment_path`'s default number.** Its docstring promises `exp0` and
  `exp1`, but when no suffix is found the code appends 2. The number is
  `max + 1` of the suffixes found, so an existing `exp0` yields 1: the number
  is at least 1, not at least 2. `train` calls the function as written
  (line 93), and so does `Ensemble.Train`. The unanchored search at line 84
  can hand back a directory that already exists (see "## Findings");
  `RunDir.IncrementPath` is the corrected function, and it is proved to give
  a fresh name.
- **What an early stop skips.** The `break` at line 343 leaves only the loop
  over slots (line 218). The remaining slots of that epoch are skipped, and
  the next epoch starts again at slot 0.
- **The early-stop monitor.** `EarlyStopping()` is constructed afresh at every
  call (line 340), so no instance state carries over from one call to the
  next. `early_stopping.py` is not part of this model, so state at class or
  module level cannot be ruled out. The verdict is an arbitrary oracle of
  (epoch, slot, validation loss), which covers either case: each (epoch,
  slot) pair is visited at most once.
- **When the "best" checkpoint is written.** The test at line 323 is a strict
  `>`. For F1 values 0.1, 0.3, 0.2, 0.5, 0.5, 0.4 it writes at passes 1, 2
  and 4, and the tie at pass 5 does not write.
  `BestState.CheckpointGatingExample` proves this.

Inputs outside the model are parameters: the batches each loader yields, the
macro-F1 function and the early-stop verdict (`Ensemble.Oracles`), and the set
of existing path names.

## Model

| member | source | states |
|---|---|---|
| Numerals.Decimal | ensenble_train.py:87 | `str(n)` is a non-empty string of ASCII digits whose first digit is 0 exactly when n is 0 |
| Numerals.ParseDecimal | ensenble_train.py:85 | `int(...)` of a digit string: its value read most significant digit first, leading zeros allowed (`ParseDecimalOfDecimal` proves it inverts `str`) |
| Numerals.ParseDecimalOfDecimal | ensenble_train.py:85 | reading back the numeral of n with `int(...)` gives n |
| Numerals.DecimalInjective | ensenble_train.py:87 | distinct numbers give distinct numerals, so distinct suffixes give distinct directory names |
| Numerals.DigitRun | ensenble_train.py:84 | the greedy `\d+` run is a digit-only prefix followed by a non-digit or the end |
| Numerals.DigitRunOfNumeral | ensenble_train.py:84-85 | a numeral followed by a non-digit is read back by `\d+` as exactly that numeral |
| Numerals.DigitRunOfDigits | ensenble_train.py:84 | any digit string followed by a non-digit is taken whole by `\d+` |
| Events.CheckpointFile | ensenble_train.py:325-328 | checkpoint files live under the run directory |
| Events.CheckpointFilesDistinct | ensenble_train.py:325-328 | no two (slot, kind) pairs share a checkpoint file name |
| Events.SavedFiles | ensenble_train.py:325-328 | the files the saves of a log write under the run directory, in order |
| RunDir.Join | ensenble_train.py:93 | `os.path.join` ends with its second argument, returns it alone when it is absolute, and otherwise extends the first |
| RunDir.Name | ensenble_train.py:84 | the final path component is a slash-free suffix of the path that starts right after a slash or at the start |
| RunDir.Stem | ensenble_train.py:84 | `path.stem` is a prefix of the final component |
| RunDir.LastIndexOf | ensenble_train.py:84 | the position of the last occurrence of a character, or -1 when there is none, as `path.stem` uses it to find the last `.` |
| RunDir.Glob | ensenble_train.py:83 | `glob.glob(f"{path}*")`: the existing names that extend `path` without crossing a `/`, in listing order (`GlobMembership` proves membership) |
| RunDir.GlobMembership | ensenble_train.py:83 | `glob(path + "*")` finds exactly the existing names that extend `path` without crossing a `/` |
| RunDir.MaxIsMaximum | ensenble_train.py:86 | `max(i)` bounds every element of `i` and is one of them |
| RunDir.Max | ensenble_train.py:86 | `max(i)` of a non-empty list (`MaxIsMaximum` proves it is the maximum) |
| RunDir.NextNumber | ensenble_train.py:86 | `max(i) + 1` when numbers were found, else 2 |
| RunDir.MatchAt | ensenble_train.py:84 | the pattern `stem(\d+)` can start at a given position: the stem occurs there and a digit follows it |
| RunDir.FirstMatchFrom | ensenble_train.py:84 | the left-to-right scan of `re.search`: a position at or after the start where the pattern matches, or none |
| RunDir.FirstMatchFromLeftmost | ensenble_train.py:84 | the search reports the leftmost position where the stem is followed by a digit, and reports none only when there is none |
| RunDir.SearchSuffix | ensenble_train.py:84-85 | `re.search(stem + r"(\d+)", d)` read as `int(m.groups()[0])`: the greedy digit run after the leftmost occurrence of the stem followed by a digit, or none |
| RunDir.SearchSuffixNone | ensenble_train.py:84-85 | `re.search` fails on a name exactly when the stem is followed by a digit nowhere in it |
| RunDir.Matches | ensenble_train.py:84 | one search result per globbed name |
| RunDir.FoundInclude | ensenble_train.py:85 | the number of every successful match is in `i` |
| RunDir.FoundSource | ensenble_train.py:85 | every number in `i` comes from a successful match |
| RunDir.Found | ensenble_train.py:85 | `[int(m.groups()[0]) for m in matches if m]`: the numbers of the successful matches, in order (`FoundInclude` and `FoundSource` prove both directions) |
| RunDir.NextNumberAbove | ensenble_train.py:86 | `n` is larger than the number of every successful match |
| RunDir.NextNumberDefault | ensenble_train.py:86 | `n` is 2 when nothing matched |
| RunDir.NextNumberOfMatch | ensenble_train.py:86 | when something matched, `n` is one more than the number of some match |
| RunDir.IncrementPathAsWritten | ensenble_train.py:80-87 | the path is returned unchanged when it does not exist or `exist_ok` is set; otherwise `path` followed by the numeral of `n` |
| RunDir.AsWrittenNumber | ensenble_train.py:83-87 | for an existing path: the appended `n` is at least 1, exceeds every suffix the search reads, is 2 when nothing is read, and is otherwise one more than a suffix that was read |
| RunDir.SuffixNumberAbove | ensenble_train.py:84-86 | the number exceeds every suffix read from any globbed name |
| RunDir.SuffixNumberDefault | ensenble_train.py:84-86 | the number is 2 when no globbed name yields a suffix |
| RunDir.SuffixNumberFound | ensenble_train.py:84-86 | otherwise the number is one more than a suffix read from some globbed name |
| RunDir.AsWrittenNumberIs | ensenble_train.py:87 | the numeral appended is determined uniquely by the number line 86 computes |
| RunDir.AsWrittenReusesExistingDirectory | ensenble_train.py:84-87 | with existing names `a1/a` and `a1/a2`, the code as written returns `a1/a2`, a name that already exists |
| RunDir.AnchoredSuffix | ensenble_train.py:84 | corrected search: a number is read exactly when the name continues `path` with a digit |
| RunDir.AnchoredMatches | ensenble_train.py:84 | corrected line 84: one anchored read per globbed name |
| RunDir.IncrementPath | ensenble_train.py:80-87 | corrected `increment_path`: unchanged when the path does not exist or `exist_ok` is set, and always an extension of `path` |
| RunDir.IncrementPathFresh | ensenble_train.py:80-87 | corrected `increment_path` on an existing path returns a name not in use, `path` plus a numeral `n >= 1` above every suffix written directly after `path` |
| RunDir.CorrectedAvoidsExistingDirectory | ensenble_train.py:84-87 | on the input that defeats the code as written, the corrected function returns the new name `a1/a3` |
| Metrics.MatchCount | ensenble_train.py:259-260 | `(preds == labels).sum()` is at most the number of labels and predictions, and counts all of them when they agree |
| Metrics.AllLabels | ensenble_train.py:251 | `y_true` after `y_true.extend(labels.tolist())` over the first `k` batches; the validation pass builds it the same way at line 300 |
| Metrics.AllPreds | ensenble_train.py:252 | `y_pred` after `y_pred.extend(preds.tolist())` over the first `k` batches; the validation pass builds it the same way at line 301 |
| Metrics.Closes | ensenble_train.py:261 | the test `(idx + 1) % log_interval == 0` (`MultipleOfIsMod` proves it agrees with `%`) |
| Metrics.MultipleOfIsMod | ensenble_train.py:261 | the window test by repeated subtraction agrees with `(idx + 1) % log_interval == 0` |
| Metrics.TimesIsProduct | ensenble_train.py:261-265 | the window boundary `Times(m, L)` is `m * L` |
| Metrics.WindowOf | ensenble_train.py:261 | batch count `x` lies in window `x / log_interval` |
| Metrics.FlushLogLength | ensenble_train.py:261-266 | `m` complete windows log two entries each |
| Metrics.FlushLogEntry | ensenble_train.py:261-266 | entries `2j` and `2j+1` are window `j`'s mean loss (`temp_loss_value / log_interval`) and accuracy (`temp_matches / batch_size / log_interval`), both at the step of the batch that closes the window |
| Metrics.FlushStepsIncrease | ensenble_train.py:265-266 | flush steps increase strictly and stay within the epoch's range of steps |
| Metrics.Flush | ensenble_train.py:262-266 | one flush: `Train/loss` as the window loss sum over `log_interval`, then `Train/accuracy` as `temp_matches / batch_size / log_interval`, both at one step |
| Metrics.FlushLog | ensenble_train.py:261-266 | the flushes of the first `m` windows in order, each at the step of the batch that closes it |
| Metrics.TrainLog | ensenble_train.py:256-269 | everything a training pass logs: one flush per complete window, steps offset by `epoch * len(loader)` (`WindowPassMeaning` proves the loop produces it) |
| Metrics.TrainLogLength | ensenble_train.py:261-266 | a training pass flushes `floor(numBatches / log_interval)` times, two entries each |
| Metrics.TrainLogStepsIncrease | ensenble_train.py:265-266 | within an epoch the flushes log at strictly increasing steps in `[epoch*len, epoch*len + len)`, and a flush's loss and accuracy share one step |
| Metrics.TrainLogStepRange | ensenble_train.py:264-265 | window `j`'s two scalars share one step, inside `[epoch * len, epoch * len + len)` |
| Metrics.EpochsLogApart | ensenble_train.py:264-265 | if a slot's loader yields the same number of batches in two epochs, every flush of the earlier epoch is logged at a smaller step than every flush of the later one |
| Metrics.FlushLogIsScalars | ensenble_train.py:265-266 | a flush log contains only `Train/loss` and `Train/accuracy` scalars |
| Metrics.TrainLogIsScalars | ensenble_train.py:265-266 | the training pass logs only its two training scalars, never a checkpoint |
| Metrics.CorrectSumSplit | ensenble_train.py:259-260 | correct counts over adjacent ranges of batches add up |
| Metrics.WindowsPartitionMatches | ensenble_train.py:259-269 | `matches` equals the flushed window counts plus the residual unflushed window |
| Metrics.CorrectSumBounds | ensenble_train.py:259-260 | under `drop_last`, `k` batches have at most `batch_size * k` correct predictions |
| Metrics.AccuracyInUnitInterval | ensenble_train.py:271-272 | under `drop_last`, training and validation accuracy lie in [0, 1] |
| Metrics.LabelListsLength | ensenble_train.py:251-252 | under `drop_last`, `y_true` and `y_pred` each have `batch_size * numBatches` entries |
| Metrics.MeanLoss | ensenble_train.py:271 | the summed batch losses over the number of batches; the validation pass uses the same mean at line 315 |
| Metrics.Accuracy | ensenble_train.py:272 | correct predictions over `batch_size * len(loader)`; the validation pass uses the same ratio at line 316 (`AccuracyInUnitInterval` bounds it) |
| Metrics.Sum | ensenble_train.py:315 | `np.sum(val_loss_items)`, the sum of a list of reals |
| Metrics.IntSum | ensenble_train.py:316 | `np.sum(val_acc_items)`, the sum of a list of counts |
| Metrics.FlushingStep | ensenble_train.py:258-269 | the batch that closes a window appends its flush and resets both window totals to 0 |
| Metrics.AccumulatingStep | ensenble_train.py:258-261 | any other batch only adds its loss and correct count to the window totals |
| Metrics.WindowStep | ensenble_train.py:258-269 | one batch's effect on the window totals and the log: add, and on a multiple of `log_interval` flush and reset |
| Metrics.WindowAfter | ensenble_train.py:256-269 | the window totals and the log after the first `k` batches (`WindowMeaning` proves their closed form) |
| Metrics.WindowMeaning | ensenble_train.py:256-269 | after `k` batches the complete windows have been flushed, and the window totals hold the sums since the last multiple of `log_interval` |
| Metrics.WindowPassMeaning | ensenble_train.py:240-269 | at the end of the pass the log holds exactly one flush per full window |
| Metrics.TrainEpoch | ensenble_train.py:234-273 | the training pass returns the mean loss, `matches / (batch_size * len)`, F1 of all predictions against all labels, and exactly the windowed log; under `drop_last` the accuracy is in [0, 1] |
| Metrics.Validate | ensenble_train.py:287-317 | the validation pass's item lists sum to the mean loss and `sum / (valid_batch_size * len)`, with F1 over all predictions and labels; under `drop_last` the accuracy is in [0, 1] |
| BestState.MinBound | ensenble_train.py:320 | `min(best, loss)` is finite, at most the new loss and the old bound, and one of the two |
| BestState.MaxReal | ensenble_train.py:319 | `max(a, b)` bounds both and is one of them |
| BestState.Initial | ensenble_train.py:214-216 | a slot's starting best state: accuracy 0, loss infinity, F1 0 |
| BestState.Update | ensenble_train.py:319-327 | one validation pass raises the best accuracy to the max, lowers the best loss to the min, and changes the best F1 exactly when the new F1 is strictly greater, taking the new F1 |
| BestState.SavesBest | ensenble_train.py:323 | the strict test `f1 > best_f1_score` |
| BestState.Replay | ensenble_train.py:214-327 | a slot's best state after its validation passes: `Update` applied from 0, infinity, 0 (the lemmas below prove what it holds) |
| BestState.SaveFlags | ensenble_train.py:323-325 | for each pass of a slot whether it writes the "best" checkpoint, one flag per pass (`SaveFlagIffNewMax` characterises them) |
| BestState.ReplayAccIsUpperBound | ensenble_train.py:319-321 | `best_val_accs[i]` is at least 0 and at least every accuracy seen |
| BestState.ReplayAccAttained | ensenble_train.py:319-321 | `best_val_accs[i]` is 0 or one of the accuracies seen, so it is their maximum with 0 |
| BestState.ReplayLossIsLowerBound | ensenble_train.py:320-322 | `best_val_losses[i]` is infinite exactly before the first pass and after that at most every loss seen |
| BestState.ReplayLossAttained | ensenble_train.py:320-322 | after the first pass `best_val_losses[i]` is one of the losses seen, so it is their minimum |
| BestState.ReplayF1IsUpperBound | ensenble_train.py:323-326 | `best_f1_scores[i]` is at least 0 and at least every F1 seen |
| BestState.ReplayF1Attained | ensenble_train.py:323-326 | `best_f1_scores[i]` is 0 or one of the F1 values seen, so it is their maximum with 0 |
| BestState.ReplayMonotone | ensenble_train.py:319-327 | over time the best accuracy and best F1 never decrease and the best loss never increases |
| BestState.SaveFlagIffNewMax | ensenble_train.py:323-325 | a pass writes the "best" checkpoint exactly when its F1 is positive and strictly above every earlier F1 of the slot; ties do not write |
| BestState.StoredF1ChangesIffSaved | ensenble_train.py:323-327 | the stored F1 changes exactly on the passes that write the "best" checkpoint, and then becomes that pass's F1 |
| BestState.CheckpointGatingExample | ensenble_train.py:323-325 | F1 values 0.1, 0.3, 0.2, 0.5, 0.5, 0.4 write the "best" checkpoint at passes 1, 2 and 4 only |
| Ensemble.SlotsRun | ensenble_train.py:340-343 | a round of slots ends after the first slot that signals a stop, or after all five |
| Ensemble.SlotsRunIsFirstStop | ensenble_train.py:340-343 | an epoch runs at least one slot, runs every slot before the first stop signal, and ends right after it |
| Ensemble.Stops | ensenble_train.py:340 | the early-stop verdict after slot `i` of epoch `e`, taken on that slot's validation loss |
| Ensemble.EpochVisits | ensenble_train.py:218 | slots `0` to `n - 1` of one epoch, in order, `n` of them |
| Ensemble.Schedule | ensenble_train.py:217-218 | the visits of the first `epochs` epochs, each epoch through its first stop (the schedule lemmas prove its shape) |
| Ensemble.VisitedIff | ensenble_train.py:217-343 | slot `i` of epoch `e` is visited exactly when `e` is one of the configured epochs and `i` is not past the epoch's first stop signal |
| Ensemble.SlotZeroEveryEpoch | ensenble_train.py:217-218 | slot 0 is visited in every epoch: a stop never carries over to the next epoch |
| Ensemble.StopSkipsRestOfEpoch | ensenble_train.py:340-343 | a stop signal at a visited slot `i` skips every later slot of that epoch |
| Ensemble.ScheduleOrdered | ensenble_train.py:217-218 | visits come in strictly increasing lexicographic (epoch, slot) order, so every slot runs at most once per epoch |
| Ensemble.NoStopLength | ensenble_train.py:217-218 | without any stop signal there are exactly `5 * epochs` slot runs |
| Ensemble.SchedulePrefix | ensenble_train.py:217 | later epochs only append visits |
| Ensemble.NoStopSchedule | ensenble_train.py:217-218 | without any stop signal visit `5e + i` is slot `i` of epoch `e`, the full lexicographic order |
| Ensemble.Start | ensenble_train.py:214-216 | the initial lists: five slots, each at `BestState.Initial`, and an empty log |
| Ensemble.BestOf | ensenble_train.py:225-227 | slot `i`'s entries of `best_val_accs`, `best_val_losses` and `best_f1_scores` |
| Ensemble.Observe | ensenble_train.py:315-317 | what a visit's validation pass reports: its accuracy, mean loss and macro-F1 |
| Ensemble.SlotEvents | ensenble_train.py:261-337 | what one visit logs and saves, in the order of the code |
| Ensemble.SaveEvents | ensenble_train.py:323-328 | the saves of a visit: `model{i}_best.pth` when it saves "best", then always `model{i}_last.pth` |
| Ensemble.ReportEvents | ensenble_train.py:334-337 | `Val/loss`, `Val/accuracy` and `Val/F1` at step `epoch`, then the `results` figure |
| Ensemble.Step | ensenble_train.py:219-343 | one visit: the slot's three entries updated by `Update` and its events appended (`StepKeepsOtherSlots`, `SlotIsReplay` and `VisitLog` prove what it does) |
| Ensemble.Run | ensenble_train.py:217-343 | the state after a sequence of visits, from a given well-formed state |
| Ensemble.RunOver | ensenble_train.py:214-343 | the state after a sequence of visits from the initial lists (lines 214-216) |
| Ensemble.History | ensenble_train.py:315-317 | the validation reports of one slot among a sequence of visits, in order |
| Ensemble.StepKeepsOtherSlots | ensenble_train.py:321-326 | visiting slot `i` changes only index `i` of the three best lists |
| Ensemble.SlotIsReplay | ensenble_train.py:214-327 | each slot's entries of the three lists are the slot's best state replayed over its own validation reports, in order |
| Ensemble.VisitLog | ensenble_train.py:261-337 | a visit appends the training log, the "best" save when its F1 beats the slot's history, the "last" save, the three validation scalars and the figure, in that order |
| Ensemble.VisitSaves | ensenble_train.py:323-328 | every visit saves "last", and saves "best" exactly when its F1 is positive and strictly above every earlier F1 of the same slot |
| Ensemble.VisitFiles | ensenble_train.py:325-328 | the files a visit writes under the run directory: `model{i}_best.pth` when it saves "best", then always `model{i}_last.pth` |
| Ensemble.VisitSlot | ensenble_train.py:219-343 | the loop body's new lists and log are exactly one visit's step, and its early-stop verdict is the oracle's on the validation loss |
| Ensemble.RunAppend | ensenble_train.py:217-218 | running one epoch's visits after the earlier ones is running their concatenation, so the lists and the log carry over from epoch to epoch unchanged |
| Ensemble.RunEpoch | ensenble_train.py:218-343 | from any well-formed state, one round of slots performs exactly the epoch's visits up to its first stop signal |
| Ensemble.Train | ensenble_train.py:90-343 | the run directory is `increment_path(os.path.join(model_dir, name))` as written, and the final lists and log are those of the full visit schedule |
| Ensemble.GetLr | ensenble_train.py:35-37 | `get_lr` returns the first group's learning rate, and nothing when there are no groups |
| Ensemble.GetLrIgnoresLaterGroups | ensenble_train.py:35-37 | groups after the first never change the answer |

## Left out

- Neural-network computation is left out: the forward pass, `argmax`, the loss, `backward`, optimiser steps and the `StepLR` schedule. They are torch internals with floating-point numerics. Each batch enters as its (loss, labels, predictions).
- Floating point is left out: every value is a Dafny `real`. Python 3's `/` on integers is true division, modelled as real division.
- `sklearn.metrics.f1_score` is left out: it is treated as an opaque real function of `(y_pred, y_true)`.
- `EarlyStopping`'s internals are left out, because `early_stopping.py` is not part of this model. Its verdict is an oracle of (epoch, slot, validation loss).
- Training dynamics are left out: the batches a loader yields are an oracle of (epoch, slot). Each pair is visited at most once, so this needs no model of how the networks change.
- All I/O is left out: `torch.save`, `SummaryWriter`, `print`, the `config.json` dump, `torch.cuda.empty_cache`, `set_transform` and `model.train()`/`eval()`. Saves and logger calls are events; a figure event carries no image.
- Most of `grid_image` is left out (matplotlib, random choices). Only its assertion `n <= batch_size` is kept, as the requirement that each first validation batch holds at least 16 labels.
- `seed_everything`, `argparse`, dataset, model, optimiser and scheduler construction are left out, as global state and configuration.
- The filesystem is left out: it is a list of existing path names. `Path(path)` normalisation (trailing slashes, `./`, doubled slashes) is not modelled: the path is taken as already normalised.
- The glob is simplified: it is "existing names that extend `path` within the final component". Glob metacharacters inside `path` and differences between files and directories are not modelled.
- The regular expression is simplified. `path.stem` is inserted into it unescaped, but the model reads the stem literally, so regex metacharacters in a stem are not modelled. `\d` is ASCII digits only, while Python also matches other Unicode digits.
- A negative `--epochs` is left out: `Config.epochs` is a `nat`, but the parser accepts any int (line 350). `range(args.epochs)` then runs no epoch, which is what `epochs = 0` gives in the model.
- A non-positive `log_interval` is left out: `Config.logInterval` is positive, while the argument parser accepts any int (line 366). With 0, the `%` at line 261 raises `ZeroDivisionError` on the first batch. With a negative value, Python's floored `%` is 0 on every multiple of its magnitude, and lines 262-263 then log negated window means.
- Metrics.EpochsLogApart: successive epochs are proved to log at distinct steps only when a slot's loader yields the same number of batches in both. `Ensemble.Oracles` does not force equal lengths, while a real `DataLoader` over a fixed dataset with `drop_last` does yield them.
- Empty loaders are left out: `Metrics.Batches` is non-empty. On an empty loader the source's divisions at lines 271, 272, 315 and 316 divide by zero.
- Metrics.MatchCount: counts agreements over the shorter of labels and predictions. The tensors in the source always have equal shapes.
- Metrics.AccuracyInUnitInterval: it holds only under `drop_last`, which the loaders set at lines 138 and 148. The oracle types do not enforce it, so the lemma assumes `DropLast`.
- RunDir.AsWrittenNumber: it states `n >= 1`, not `n >= 2`, because an existing name with suffix 0 makes the code choose 1.
- Ensemble.GetLr: the learning rate is only printed (line 274), so no other member uses it.

## Findings

| source | as written | input that shows it | evidently intended | confidence | as-written member | corrected member |
|---|---|---|---|---|---|---|
| ensenble_train.py:84-87 | `re.search(stem + r"(\d+)", d)` is unanchored, so it reads the first digits after the stem anywhere in the globbed name, including an earlier path component | path `a1/a` with existing `a1/a` and `a1/a2`: both searches read 1 from `a1`, so `n` is 2 and the result `a1/a2` already exists | read the number written directly after `path`, so that the new run directory is not already in use | high; not executed | RunDir.AsWrittenReusesExistingDirectory | RunDir.IncrementPathFresh |
