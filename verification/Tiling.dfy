/** Folds that cover the log end to end, and when one more leaves them so. */
module Tiling {
  import opened Domain
  import opened Folds
  import opened Compaction

  /** Each fold covers some of the log, whose first event is number 1. */
  ghost predicate Sound(folds: seq<Fold>) {
    forall f :: f in folds ==> 1 <= f.from <= f.through
  }

  /** From the first event on, each fold begins where the one before it ends. */
  ghost predicate Tiles(folds: seq<Fold>) {
    && (folds != [] ==> folds[0].from == 1)
    && (forall k :: 0 <= k < |folds| ==> folds[k].from <= folds[k].through)
    && (forall k :: 0 < k < |folds| ==> folds[k].from == folds[k - 1].through + 1)
  }

  ghost predicate WellFolded(folds: seq<Fold>) {
    Tiles(folds) && |folds| <= 6
  }

  function Reach(folds: seq<Fold>): Seq {
    if folds == [] then 0 else folds[|folds| - 1].through
  }

  /** The fold begins where the folds it leaves standing end, and they leave room for it. Whoever is about to record
      one can see this by reading the folds again. */
  predicate Continues(folds: seq<Fold>, fold: Fold) {
    var kept := StartingBefore(folds, fold.from);
    fold.from == Reach(kept) + 1 && |kept| < 6
  }

  predicate Covers(fold: Fold, t: Seq) {
    fold.from <= t <= fold.through
  }

  ghost predicate Covered(folds: seq<Fold>, t: Seq) {
    exists k :: 0 <= k < |folds| && Covers(folds[k], t)
  }

  // ---- one fold more ----------------------------------------------------------------

  lemma {:induction false} TilesInOrder(folds: seq<Fold>, j: nat, k: nat)
    requires Tiles(folds) && j < k < |folds|
    ensures folds[j].through < folds[k].from
    decreases k
  {
    if j < k - 1 {
      TilesInOrder(folds, j, k - 1);
    }
  }

  lemma {:induction false} TilesAreSound(folds: seq<Fold>)
    requires Tiles(folds)
    ensures Sound(folds) && StrictStarts(folds)
  {
    forall j, k | 0 <= j < k < |folds| ensures folds[j].from < folds[k].from {
      TilesInOrder(folds, j, k);
    }
    forall f | f in folds ensures 1 <= f.from <= f.through {
      var k :| 0 <= k < |folds| && folds[k] == f;
      if k > 0 {
        TilesInOrder(folds, 0, k);
      }
    }
  }

  /** The folds cover the log after one more exactly when those it leaves standing do and it begins where they end. */
  lemma {:induction false} TilesAgainIff(folds: seq<Fold>, fold: Fold)
    requires fold.from <= fold.through
    ensures WellFolded(StartingBefore(folds, fold.from) + [fold])
       <==> WellFolded(StartingBefore(folds, fold.from)) && Continues(folds, fold)
  {
    var kept := StartingBefore(folds, fold.from);
    var now := kept + [fold];
    assert now[|kept|] == fold;
    if WellFolded(now) {
      assert forall k :: 0 <= k < |kept| ==> kept[k] == now[k];
    }
  }

  lemma {:induction false} TilesPrefix(folds: seq<Fold>, n: nat)
    requires WellFolded(folds) && n <= |folds|
    ensures WellFolded(folds[..n])
  {
  }

  lemma {:induction false} TilesMoreIff(folds: seq<Fold>, fold: Fold)
    requires WellFolded(folds) && fold.from <= fold.through
    ensures WellFolded(StartingBefore(folds, fold.from) + [fold]) <==> Continues(folds, fold)
  {
    TilesAreSound(folds);
    KeptIsPrefix(folds, fold.from);
    TilesPrefix(folds, |StartingBefore(folds, fold.from)|);
    TilesAgainIff(folds, fold);
  }

  /** Among folds that cover the log: the fold begins the log, or where one of them does, or where they end with room
      left. */
  lemma {:induction false} ContinuesIff(folds: seq<Fold>, fold: Fold)
    requires WellFolded(folds)
    ensures Continues(folds, fold)
       <==> || fold.from == 1
            || (exists k :: 0 <= k < |folds| && folds[k].from == fold.from)
            || (fold.from == Reach(folds) + 1 && |folds| < 6)
  {
    TilesAreSound(folds);
    KeptIsPrefix(folds, fold.from);
    var n := |StartingBefore(folds, fold.from)|;
    if n < |folds| {
      assert folds[n].from == if n == 0 then 1 else folds[n - 1].through + 1;
    } else {
      assert folds[..n] == folds;
    }
    if n > 0 {
      assert folds[0] in folds;
    }
  }

  // ---- what the folds cover ------------------------------------------------------------

  /** Every position the folds reach lies in exactly one of them. */
  lemma {:induction false} InExactlyOneFold(folds: seq<Fold>, t: Seq)
    requires Tiles(folds) && folds != [] && 1 <= t <= Reach(folds)
    ensures Covered(folds, t)
    ensures forall j, k :: 0 <= j < |folds| && 0 <= k < |folds| && Covers(folds[j], t) && Covers(folds[k], t) ==> j == k
  {
    hide Tiles;
    InSomeFold(folds, t);
    forall j, k | 0 <= j < |folds| && 0 <= k < |folds| && Covers(folds[j], t) && Covers(folds[k], t) ensures j == k {
      if j < k {
        TilesInOrder(folds, j, k);
      } else if k < j {
        TilesInOrder(folds, k, j);
      }
    }
  }

  lemma {:induction false} InSomeFold(folds: seq<Fold>, t: Seq)
    requires Tiles(folds) && folds != [] && 1 <= t <= Reach(folds)
    ensures Covered(folds, t)
  {
    var n := |folds| - 1;
    if folds[n].from <= t {
      assert Covers(folds[n], t);
    } else {
      var init := folds[..n];
      InSomeFold(init, t);
      var k :| 0 <= k < |init| && Covers(init[k], t);
      assert folds[k] == init[k];
    }
  }

  lemma {:induction false} CoveredIff(folds: seq<Fold>, t: Seq)
    requires Tiles(folds)
    ensures Covered(folds, t) <==> 1 <= t <= Reach(folds)
  {
    if 1 <= t <= Reach(folds) {
      InSomeFold(folds, t);
    }
    if k :| 0 <= k < |folds| && Covers(folds[k], t) {
      TilesAreSound(folds);
      assert folds[k] in folds;
      if k < |folds| - 1 {
        TilesInOrder(folds, k, |folds| - 1);
      }
    }
  }
}
