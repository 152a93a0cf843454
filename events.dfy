/**
 * What a training run leaves behind, as events instead of I/O: scalar and
 * figure records written to the logging sink, and checkpoint saves.
 */
module Events {
  import opened Numerals

  datatype Kind = Best | Last

  datatype Event =
    | Scalar(tag: string, value: real, step: int)   // logger.add_scalar(tag, value, step)
    | Figure(tag: string, step: int)                // logger.add_figure(tag, figure, step)
    | Checkpoint(slot: nat, kind: Kind)             // torch.save(..., CheckpointFile(save_dir, slot, kind))

  const TrainLossTag := "Train/loss"
  const TrainAccuracyTag := "Train/accuracy"
  const ValLossTag := "Val/loss"
  const ValAccuracyTag := "Val/accuracy"
  const ValF1Tag := "Val/F1"
  const ResultsTag := "results"

  function KindSuffix(kind: Kind): string {
    match kind
    case Best => "_best.pth"
    case Last => "_last.pth"
  }

  /** `f"{save_dir}/model{i}_best.pth"` and `f"{save_dir}/model{i}_last.pth"`. */
  function CheckpointFile(saveDir: string, slot: nat, kind: Kind): (f: string)
    ensures saveDir <= f
  {
    saveDir + "/model" + Decimal(slot) + KindSuffix(kind)
  }

  /** No two (slot, kind) pairs of one run share a checkpoint file. */
  lemma CheckpointFilesDistinct(saveDir: string, s1: nat, k1: Kind, s2: nat, k2: Kind)
    requires CheckpointFile(saveDir, s1, k1) == CheckpointFile(saveDir, s2, k2)
    ensures s1 == s2 && k1 == k2
  {
    var prefix := saveDir + "/model";
    DropPrefix(prefix, Decimal(s1), KindSuffix(k1));
    DropPrefix(prefix, Decimal(s2), KindSuffix(k2));
    NumberedNameDistinct(s1, k1, s2, k2);
  }

  lemma DropPrefix(p: string, t: string, u: string)
    ensures (p + t + u)[|p|..] == t + u
  {
  }

  /** The digits of `model{i}` end where the suffix starts, so the numeral and the suffix can be read back. */
  lemma NumberedNameDistinct(s1: nat, k1: Kind, s2: nat, k2: Kind)
    requires Decimal(s1) + KindSuffix(k1) == Decimal(s2) + KindSuffix(k2)
    ensures s1 == s2 && k1 == k2
  {
    var t := Decimal(s1) + KindSuffix(k1);
    assert !IsDigit(KindSuffix(k1)[0]) && !IsDigit(KindSuffix(k2)[0]);
    DigitRunOfNumeral(s1, KindSuffix(k1));
    DigitRunOfNumeral(s2, KindSuffix(k2));
    DecimalInjective(s1, s2);
    assert KindSuffix(k1) == t[|Decimal(s1)|..] == KindSuffix(k2);
    assert KindSuffix(Best)[1] != KindSuffix(Last)[1];
  }

  /** The files the saves of `log` write under `saveDir`, in order. */
  function SavedFiles(saveDir: string, log: seq<Event>): seq<string> {
    if log == [] then []
    else
      SavedFiles(saveDir, log[..|log| - 1])
        + (match log[|log| - 1]
           case Checkpoint(slot, kind) => [CheckpointFile(saveDir, slot, kind)]
           case _ => [])
  }

  lemma {:induction false} SavedFilesAppend(saveDir: string, a: seq<Event>, b: seq<Event>)
    ensures SavedFiles(saveDir, a + b) == SavedFiles(saveDir, a) + SavedFiles(saveDir, b)
  {
    if b == [] {
      assert a + b == a;
    } else {
      var p := b[..|b| - 1];
      SavedFilesAppend(saveDir, a, p);
      assert (a + b)[..|a + b| - 1] == a + p;
      assert (a + b)[|a + b| - 1] == b[|b| - 1];
    }
  }

  /** A log of scalars and figures writes no file. */
  lemma {:induction false} SavedFilesNone(saveDir: string, log: seq<Event>)
    requires forall k :: 0 <= k < |log| ==> !log[k].Checkpoint?
    ensures SavedFiles(saveDir, log) == []
  {
    if log != [] {
      SavedFilesNone(saveDir, log[..|log| - 1]);
    }
  }
}
