/**
 * The best state the ensemble loop keeps for each of its slots
 * (ensenble_train.py lines 214-216 and 319-327): the best validation
 * accuracy so far, the best validation loss so far, and the best macro-F1
 * so far, whose strict improvement is the only thing that writes the
 * slot's "best" checkpoint.
 */
module BestState {

  /** A loss bound; `Infinite` is the `np.inf` that `best_val_losses` starts from. */
  datatype Bound = Infinite | Finite(value: real)

  /** `b` is no greater than `x`. */
  predicate AtMost(b: Bound, x: real) {
    b.Finite? && b.value <= x
  }

  /** `min(best_val_loss, val_loss)`; `min(inf, x)` is `x`. */
  function MinBound(b: Bound, x: real): (r: Bound)
    ensures AtMost(r, x)
    ensures b.Finite? ==> r.value <= b.value
    ensures r == b || r == Finite(x)
  {
    if b.Finite? && b.value <= x then b else Finite(x)
  }

  /** `max(a, b)`. */
  function MaxReal(a: real, b: real): (r: real)
    ensures a <= r && b <= r
    ensures r == a || r == b
  {
    if b > a then b else a
  }

  /** What one validation pass of a slot reports: `val_acc`, `val_loss` and the macro-F1. */
  datatype Observation = Observation(acc: real, loss: real, f1: real)

  /** One slot's entries of `best_val_accs`, `best_val_losses` and `best_f1_scores`. */
  datatype SlotBest = SlotBest(acc: real, loss: Bound, f1: real)

  /** Lines 214-216: accuracy and F1 start at 0, the loss at infinity. */
  function Initial(): SlotBest {
    SlotBest(0.0, Infinite, 0.0)
  }

  /** The test at line 323: the new F1 is strictly greater than the stored best. */
  predicate SavesBest(b: SlotBest, o: Observation) {
    o.f1 > b.f1
  }

  /**
   * Lines 319-327: the slot's best state after one validation pass. The
   * accuracy is a running maximum, the loss a running minimum, and the F1
   * is replaced only when the new value is strictly greater.
   */
  function Update(b: SlotBest, o: Observation): (r: SlotBest)
    ensures b.acc <= r.acc && o.acc <= r.acc && (r.acc == b.acc || r.acc == o.acc)
    ensures AtMost(r.loss, o.loss) && (b.loss.Finite? ==> r.loss.value <= b.loss.value)
    ensures r.loss == b.loss || r.loss == Finite(o.loss)
    ensures b.f1 <= r.f1
    ensures r.f1 != b.f1 <==> SavesBest(b, o)
    ensures SavesBest(b, o) ==> r.f1 == o.f1
  {
    SlotBest(
      MaxReal(b.acc, o.acc),
      MinBound(b.loss, o.loss),
      if SavesBest(b, o) then o.f1 else b.f1)
  }

  /** The slot's best state after the validation passes `h`, oldest first. */
  function Replay(h: seq<Observation>): SlotBest {
    if h == [] then Initial() else Update(Replay(h[..|h| - 1]), h[|h| - 1])
  }

  /** For each pass of `h`, whether it wrote the slot's "best" checkpoint. */
  function SaveFlags(h: seq<Observation>): (flags: seq<bool>)
    ensures |flags| == |h|
  {
    seq(|h|, k requires 0 <= k < |h| => SavesBest(Replay(h[..k]), h[k]))
  }

  lemma ReplayLast(h: seq<Observation>, o: Observation)
    ensures Replay(h + [o]) == Update(Replay(h), o)
  {
    assert (h + [o])[..|h|] == h;
  }

  // ---------------------------------------------------------------------
  // Running extrema
  // ---------------------------------------------------------------------

  /** `best_val_accs[i]` is at least 0 and at least every accuracy seen. */
  lemma {:induction false} ReplayAccIsUpperBound(h: seq<Observation>)
    ensures 0.0 <= Replay(h).acc
    ensures forall k :: 0 <= k < |h| ==> h[k].acc <= Replay(h).acc
  {
    if h != [] {
      var p := h[..|h| - 1];
      ReplayAccIsUpperBound(p);
      assert forall k :: 0 <= k < |p| ==> h[k] == p[k];
    }
  }

  /** ... and it is 0 or one of the accuracies seen: the maximum of 0 and all of them. */
  lemma {:induction false} ReplayAccAttained(h: seq<Observation>) returns (k: int)
    ensures -1 <= k < |h|
    ensures k == -1 ==> Replay(h).acc == 0.0
    ensures k >= 0 ==> h[k].acc == Replay(h).acc
  {
    if h == [] {
      k := -1;
    } else {
      var p := h[..|h| - 1];
      if Replay(h).acc == h[|h| - 1].acc {
        k := |h| - 1;
      } else {
        k := ReplayAccAttained(p);
        if k >= 0 {
          assert h[k] == p[k];
        }
      }
    }
  }

  /** `best_val_losses[i]` stays infinite until the first pass, then bounds every loss seen from below. */
  lemma {:induction false} ReplayLossIsLowerBound(h: seq<Observation>)
    ensures Replay(h).loss.Infinite? <==> h == []
    ensures forall k :: 0 <= k < |h| ==> AtMost(Replay(h).loss, h[k].loss)
  {
    if h != [] {
      var p := h[..|h| - 1];
      ReplayLossIsLowerBound(p);
      assert forall k :: 0 <= k < |p| ==> h[k] == p[k];
    }
  }

  /** ... and, once finite, it is one of the losses seen: their minimum. */
  lemma {:induction false} ReplayLossAttained(h: seq<Observation>) returns (k: nat)
    requires h != []
    ensures k < |h| && Replay(h).loss == Finite(h[k].loss)
  {
    var p := h[..|h| - 1];
    if p == [] || Replay(h).loss == Finite(h[|h| - 1].loss) {
      k := |h| - 1;
    } else {
      k := ReplayLossAttained(p);
      assert h[k] == p[k];
    }
  }

  /** `best_f1_scores[i]` is at least 0 and at least every F1 seen. */
  lemma {:induction false} ReplayF1IsUpperBound(h: seq<Observation>)
    ensures 0.0 <= Replay(h).f1
    ensures forall k :: 0 <= k < |h| ==> h[k].f1 <= Replay(h).f1
  {
    if h != [] {
      var p := h[..|h| - 1];
      ReplayF1IsUpperBound(p);
      assert forall k :: 0 <= k < |p| ==> h[k] == p[k];
    }
  }

  /** ... and it is 0 or one of the F1 values seen: the maximum of 0 and all of them. */
  lemma {:induction false} ReplayF1Attained(h: seq<Observation>) returns (k: int)
    ensures -1 <= k < |h|
    ensures k == -1 ==> Replay(h).f1 == 0.0
    ensures k >= 0 ==> h[k].f1 == Replay(h).f1
  {
    if h == [] {
      k := -1;
    } else {
      var p := h[..|h| - 1];
      if Replay(h).f1 == h[|h| - 1].f1 {
        k := |h| - 1;
      } else {
        k := ReplayF1Attained(p);
        if k >= 0 {
          assert h[k] == p[k];
        }
      }
    }
  }

  /**
   * Over time the best accuracy and the best F1 never decrease and the
   * best loss never increases: the state after the first `j` passes is
   * dominated by the state after the first `k`.
   */
  lemma {:induction false} ReplayMonotone(h: seq<Observation>, j: nat, k: nat)
    requires j <= k <= |h|
    ensures Replay(h[..j]).acc <= Replay(h[..k]).acc
    ensures Replay(h[..j]).f1 <= Replay(h[..k]).f1
    ensures Replay(h[..j]).loss.Finite? ==> AtMost(Replay(h[..k]).loss, Replay(h[..j]).loss.value)
    decreases k - j
  {
    if j < k {
      ReplayMonotone(h, j + 1, k);
      ReplayLast(h[..j], h[j]);
      assert h[..j] + [h[j]] == h[..j + 1];
    }
  }

  // ---------------------------------------------------------------------
  // Checkpoint gating
  // ---------------------------------------------------------------------

  /**
   * Pass `k` writes the "best" checkpoint exactly when its F1 is positive
   * and strictly greater than every earlier F1 of the slot; a tie with the
   * best so far does not write.
   */
  lemma SaveFlagIffNewMax(h: seq<Observation>, k: nat)
    requires k < |h|
    ensures SaveFlags(h)[k] <==> (h[k].f1 > 0.0 && forall j :: 0 <= j < k ==> h[j].f1 < h[k].f1)
  {
    var p := h[..k];
    ReplayF1IsUpperBound(p);
    var w := ReplayF1Attained(p);
    assert forall j :: 0 <= j < k ==> h[j] == p[j];
  }

  /** The F1 stored for the slot changes exactly on the passes that write the "best" checkpoint. */
  lemma StoredF1ChangesIffSaved(h: seq<Observation>, k: nat)
    requires k < |h|
    ensures Replay(h[..k + 1]).f1 != Replay(h[..k]).f1 <==> SaveFlags(h)[k]
    ensures SaveFlags(h)[k] ==> Replay(h[..k + 1]).f1 == h[k].f1
  {
    ReplayLast(h[..k], h[k]);
    assert h[..k] + [h[k]] == h[..k + 1];
  }

  function F1Only(f: real): Observation {
    Observation(0.5, 1.0, f)
  }

  /** F1 values 0.1, 0.3, 0.2, 0.5, 0.5, 0.4 write the "best" checkpoint on the first, second and fourth pass only. */
  lemma CheckpointGatingExample()
    ensures SaveFlags([F1Only(0.1), F1Only(0.3), F1Only(0.2), F1Only(0.5), F1Only(0.5), F1Only(0.4)])
         == [true, true, false, true, false, false]
  {
    var h := [F1Only(0.1), F1Only(0.3), F1Only(0.2), F1Only(0.5), F1Only(0.5), F1Only(0.4)];
    assert Replay(h[..0]) == Initial() by { assert h[..0] == []; }
    assert Replay(h[..1]).f1 == 0.1 by { ReplayLast(h[..0], h[0]); assert h[..0] + [h[0]] == h[..1]; }
    assert Replay(h[..2]).f1 == 0.3 by { ReplayLast(h[..1], h[1]); assert h[..1] + [h[1]] == h[..2]; }
    assert Replay(h[..3]).f1 == 0.3 by { ReplayLast(h[..2], h[2]); assert h[..2] + [h[2]] == h[..3]; }
    assert Replay(h[..4]).f1 == 0.5 by { ReplayLast(h[..3], h[3]); assert h[..3] + [h[3]] == h[..4]; }
    assert Replay(h[..5]).f1 == 0.5 by { ReplayLast(h[..4], h[4]); assert h[..4] + [h[4]] == h[..5]; }
  }
}
