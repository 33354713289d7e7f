/** Coins added at two levels: exactly when a batch with added coins still runs. Every level hands
    down the original selection, so a level does not know what the levels above it added. */
module ExtrasTheorems {
  import opened Arithmetic
  import opened Wrappers
  import opened Sequences
  import opened Model
  import opened Mass
  import opened Selection
  import opened Compounding
  import opened CompoundingFacts
  import opened CompoundingTheorems
  import opened Ledger
  import opened SplitRun

  /* ----- every input and every added coin is spent by the batch ----- */

  lemma {:induction false} SplitNumber(p: Params, r: Request, w: Transfer, k: nat, i: nat, j: nat)
    requires Aligned(w) && Splits(p, r, w, k, i).Ok? && j < i
    ensures |Splits(p, r, w, k, i).value| == i
    ensures SplitOf(p, r, SliceNo(w, k, j)) == Ok(Splits(p, r, w, k, i).value[j])
  {
    hide SplitOf, Splits, SliceNo, CheckFeeRate;
    SplitsAre(p, r, w, k, i);
    if j < i - 1 {
      SplitNumber(p, r, w, k, i - 1, j);
    }
  }

  /** An input is spent by the split whose range it falls in. */
  lemma SplitSpendsInput(c: Context, score: nat, w: Transfer, step: Step, k: nat, q: nat) returns (j: nat)
    requires step.Heavy? && IsHeavyStep(c, score, w, step.splits, step.merged, k) && q < |w.Body().inputs|
    ensures j < |step.splits| && Spends(w.Body())[q] in Spends(step.splits[j].Body())
  {
    hide Splits, SplitCounts, Merge, CheckFeeRate, SplitOf, CeilDiv, Spends, Uniform, WellFormed, Aligned, SumOf,
      SliceNo;
    j := RangeOf(w, k, |step.splits|, q);
    SplitNumber(c.p, c.r, w, k, |step.splits|, j);
    SliceExtends(w, k, j);
    SliceBounds(w, k, j);
    SplitShape(c.p, c.r, SliceNo(w, k, j));
    OutpointsBetween(w, Reach(w, k, j), Reach(w, k, j + 1));
    assert Spends(w.Body())[Reach(w, k, j)..Reach(w, k, j + 1)][q - Reach(w, k, j)] == Spends(w.Body())[q];
  }

  lemma RangeOf(w: Transfer, k: nat, s: nat, q: nat) returns (j: nat)
    requires k > 0 && q < |w.Body().inputs| && s == CeilDiv(|w.Body().inputs|, k)
    ensures j < s && Reach(w, k, j) <= q < Reach(w, k, j + 1) && j * k < |w.Body().inputs|
  {
    RangesPartition(|w.Body().inputs|, k, q);
    j := q / k;
    assert (j + 1) * k == j * k + k;
  }

  /** How many transactions of its batch are a level's own: its splits, or itself. */
  function OwnCount(c: Context, score: nat, w: Transfer): nat
    requires Aligned(w)
  {
    match StepOf(c, score, w)
    case Ok(Heavy(splits, _)) => |splits|
    case _ => 1
  }

  lemma InputIsSpent(fuel: nat, c: Context, scores: nat -> nat, level: nat, w: Transfer, x: Coin) returns (i: nat)
    requires Aligned(w) && Compound(fuel, c, scores, level, w).Ok? && x in Spends(w.Body())
    ensures
      var batch := Compound(fuel, c, scores, level, w).value;
      i < |batch| && i < OwnCount(c, scores(level), w) && x in Spends(batch[i].Body())
  {
    hide StepOf, Compound, AllExtras, IsHeavyStep;
    var step := StepResult(fuel, c, scores, level, w);
    if step.Light? {
      LightBatch(fuel, c, scores, level, w);
      i := 0;
    } else {
      var k := HeavyBatch(fuel, c, scores, level, w);
      var q :| 0 <= q < |Spends(w.Body())| && Spends(w.Body())[q] == x;
      i := SplitSpendsInput(c, scores(level), w, step, k, q);
    }
  }

  lemma MergeSpendsExtra(c: Context, score: nat, w: Transfer, step: Step, k: nat, x: Coin)
    requires step.Heavy? && IsHeavyStep(c, score, w, step.splits, step.merged, k)
    requires x in Outpoints(step.merged.extras)
    ensures x in Spends(step.merged.tx.Body())
  {
    hide Splits, SplitCounts, Merge, CheckFeeRate, CeilDiv, MergeAmounts;
    var _, _ := MergeShape(c, score, step.splits, w);
    var e :| 0 <= e < |step.merged.extras| && step.merged.extras[e].outpoint == x;
    assert Spends(step.merged.tx.Body())[|step.splits| + e] == x;
  }

  /** A coin added somewhere is spent below the level itself. */
  lemma {:induction false} ExtraIsSpent(fuel: nat, c: Context, scores: nat -> nat, level: nat, w: Transfer, x: Coin)
    returns (i: nat)
    requires Aligned(w) && Compound(fuel, c, scores, level, w).Ok?
    requires x in Outpoints(AllExtras(fuel, c, scores, level, w))
    ensures
      var batch := Compound(fuel, c, scores, level, w).value;
      OwnCount(c, scores(level), w) <= i < |batch| && x in Spends(batch[i].Body())
    decreases fuel
  {
    hide StepOf, Compound, AllExtras, IsHeavyStep;
    var step := StepResult(fuel, c, scores, level, w);
    if step.Light? {
      LightBatch(fuel, c, scores, level, w);
    } else {
      var k := HeavyBatch(fuel, c, scores, level, w);
      var merge, below := step.merged.tx, AllExtras(fuel - 1, c, scores, level + 1, step.merged.tx);
      var rest := Compound(fuel - 1, c, scores, level + 1, merge).value;
      assert Outpoints(step.merged.extras + below) == Outpoints(step.merged.extras) + Outpoints(below);
      if x in Outpoints(below) {
        i := ExtraIsSpent(fuel - 1, c, scores, level + 1, merge, x);
      } else {
        MergeSpendsExtra(c, scores(level), w, step, k, x);
        i := InputIsSpent(fuel - 1, c, scores, level + 1, merge, x);
      }
      i := |step.splits| + i;
      assert (step.splits + rest)[i] == rest[i - |step.splits|];
    }
  }

  /* ----- a coin added twice is spent twice ----- */

  ghost predicate SpendsTwice(batch: seq<Transfer>) {
    exists i, j, x :: 0 <= i < j < |batch| && x in Spends(batch[i].Body()) && x in Spends(batch[j].Body())
  }

  /** Each level's added coins are spare coins of the index: none twice, none selected before. */
  lemma LevelExtras(c: Context, score: nat, w: Transfer, step: Step, k: nat)
    requires step.Heavy? && IsHeavyStep(c, score, w, step.splits, step.merged, k) && NoDup(Outpoints(c.index))
    ensures NoDup(Outpoints(step.merged.extras))
    ensures step.merged.extras <= Filter(Spare(c, score), c.index)
    ensures forall u :: u in step.merged.extras ==> u in c.index && u !in c.selected
  {
    hide Splits, SplitCounts, Merge, CheckFeeRate, CeilDiv, MergeAmounts, IsMergeOf, Eligible;
    var available, sent := MergeAdds(c, score, step.splits, w);
    if available < sent {
      ExtrasAreSpare(c, score, w, sent - available);
      MapSubsequence(UtxoOutpoint, step.merged.extras, c.index);
      SubsequenceNoDup(Outpoints(step.merged.extras), Outpoints(c.index));
    }
  }

  lemma MergeAdds(c: Context, score: nat, splits: seq<Transfer>, w: Transfer) returns (available: nat, sent: nat)
    requires w.Body().inputs != [] && Merge(c, score, splits, w).Ok?
    ensures available < sent ==> MoreUtxos(c, score, w, sent - available) == Ok(Merge(c, score, splits, w).value.extras)
    ensures available >= sent ==> Merge(c, score, splits, w).value.extras == []
  {
    available, sent := MergeShape(c, score, splits, w);
  }

  lemma {:induction false} ExtrasFromIndex(fuel: nat, c: Context, scores: nat -> nat, level: nat, w: Transfer)
    requires Aligned(w) && Compound(fuel, c, scores, level, w).Ok? && NoDup(Outpoints(c.index))
    ensures forall u :: u in AllExtras(fuel, c, scores, level, w) ==> u in c.index && u !in c.selected
    decreases fuel
  {
    hide StepOf, Compound, AllExtras, IsHeavyStep, Filter;
    var step := StepResult(fuel, c, scores, level, w);
    if step.Light? {
      LightBatch(fuel, c, scores, level, w);
    } else {
      var k := HeavyBatch(fuel, c, scores, level, w);
      LevelExtras(c, scores(level), w, step, k);
      ExtrasFromIndex(fuel - 1, c, scores, level + 1, step.merged.tx);
    }
  }

  lemma {:induction false} RepeatedExtraIsSpentTwice(fuel: nat, c: Context, scores: nat -> nat, level: nat, w: Transfer)
    requires Aligned(w) && Compound(fuel, c, scores, level, w).Ok? && NoDup(Outpoints(c.index))
    requires !NoDup(Outpoints(AllExtras(fuel, c, scores, level, w)))
    ensures SpendsTwice(Compound(fuel, c, scores, level, w).value)
    decreases fuel
  {
    hide StepOf, Compound, AllExtras, IsHeavyStep, Filter, OwnCount, SpendsTwice, NoDup, Outpoints;
    var step := StepResult(fuel, c, scores, level, w);
    if step.Light? {
      LightBatch(fuel, c, scores, level, w);
      NothingRepeats();
    } else {
      var k := HeavyBatch(fuel, c, scores, level, w);
      var merge, below := step.merged.tx, AllExtras(fuel - 1, c, scores, level + 1, step.merged.tx);
      var rest := Compound(fuel - 1, c, scores, level + 1, merge).value;
      LevelExtras(c, scores(level), w, step, k);
      if NoDup(Outpoints(below)) {
        var x := SharedExtra(step.merged.extras, below);
        MergeSpendsExtra(c, scores(level), w, step, k, x);
        var i := InputIsSpent(fuel - 1, c, scores, level + 1, merge, x);
        var j := ExtraIsSpent(fuel - 1, c, scores, level + 1, merge, x);
        TwiceAt(rest, i, j, x);
      } else {
        RepeatedExtraIsSpentTwice(fuel - 1, c, scores, level + 1, merge);
      }
      TwiceInRest(step.splits, rest);
    }
  }

  lemma TwiceAt(batch: seq<Transfer>, i: nat, j: nat, x: Coin)
    requires i < j < |batch| && x in Spends(batch[i].Body()) && x in Spends(batch[j].Body())
    ensures SpendsTwice(batch)
  {
  }

  lemma TwiceInRest(splits: seq<Transfer>, rest: seq<Transfer>)
    requires SpendsTwice(rest)
    ensures SpendsTwice(splits + rest)
  {
    var i, j, x :| 0 <= i < j < |rest| && x in Spends(rest[i].Body()) && x in Spends(rest[j].Body());
    var all, n := splits + rest, |splits|;
    assert all[n + i] == rest[i] && all[n + j] == rest[j];
  }

  lemma SharedExtra(above: seq<Utxo>, below: seq<Utxo>) returns (x: Coin)
    requires NoDup(Outpoints(above)) && NoDup(Outpoints(below)) && !NoDup(Outpoints(above + below))
    ensures x in Outpoints(above) && x in Outpoints(below)
  {
    assert Outpoints(above + below) == Outpoints(above) + Outpoints(below);
    NoDupAppend(Outpoints(above), Outpoints(below));
    x :| x in Outpoints(above) && x in Outpoints(below);
  }

  /* ----- the exact condition ----- */

  /** The context of a whole request: `index` lists the wallet's coins, `w` spends the selection. */
  ghost predicate AtTheTop(c: Context, w: Transfer, m: Coins) {
    && NoDup(Outpoints(c.index)) && (forall u :: u in c.index ==> u.outpoint in m && m[u.outpoint] == u)
    && Outpoints(c.selected) == Spends(w.Body()) && (forall u :: u in c.selected ==> u in c.index)
  }

  lemma ExtrasAreHeld(fuel: nat, c: Context, scores: nat -> nat, level: nat, w: Transfer, m: Coins)
    requires Aligned(w) && AtTheTop(c, w, m) && Compound(fuel, c, scores, level, w).Ok?
    requires NoDup(Outpoints(AllExtras(fuel, c, scores, level, w)))
    ensures ExtrasHeld(m, w, AllExtras(fuel, c, scores, level, w))
  {
    hide AllExtras, Compound;
    ExtrasFromIndex(fuel, c, scores, level, w);
    forall u | u in AllExtras(fuel, c, scores, level, w) ensures u.outpoint !in Spends(w.Body()) {
      forall s | 0 <= s < |c.selected| ensures c.selected[s].outpoint != u.outpoint {
        assert c.selected[s] in c.selected;
      }
      assert Outpoints(c.selected) == Spends(w.Body());
    }
  }

  /** A batch runs over the wallet's coins exactly when no coin is added at two levels. */
  lemma RunsIffExtrasDistinct(fuel: nat, c: Context, scores: nat -> nat, w: Transfer, m: Coins, owner: Owner)
    requires Spendable(m, w) && WellFormed(w) && Unspent(m.Keys) && owner(c.r.change).Some?
    requires AtTheTop(c, w, m) && Compound(fuel, c, scores, 0, w).Ok?
    requires AllWellFormed(Compound(fuel, c, scores, 0, w).value)
    ensures Replay(m, Compound(fuel, c, scores, 0, w).value, owner).Some?
      <==> NoDup(Outpoints(AllExtras(fuel, c, scores, 0, w)))
  {
    hide Compound, AllExtras, Replay, Spendable, WellFormed, AtTheTop, ExtrasHeld, NoDup, Outpoints, NetEffect,
      GoodRun, Unspent;
    SpendableIsAligned(m, w);
    var batch := Compound(fuel, c, scores, 0, w).value;
    if NoDup(Outpoints(AllExtras(fuel, c, scores, 0, w))) {
      ExtrasAreHeld(fuel, c, scores, 0, w, m);
      BatchRuns(fuel, c, scores, 0, w, m, owner);
    } else {
      TopIndexIsDistinct(c, w, m);
      RepeatedExtraIsSpentTwice(fuel, c, scores, 0, w);
      var i: nat, j: nat, x :| i < j < |batch| && x in Spends(batch[i].Body()) && x in Spends(batch[j].Body());
      if Replay(m, batch, owner).Some? {
        ReplaySpendsOnce(m, batch, owner, i, j, x);
      }
    }
  }

  lemma TopIndexIsDistinct(c: Context, w: Transfer, m: Coins)
    requires AtTheTop(c, w, m)
    ensures NoDup(Outpoints(c.index))
  {
  }

  /* ----- when the node's score does not move during the request ----- */

  /** No two levels both add coins. */
  ghost predicate AtMostOneLevelAdds(ess: seq<seq<Utxo>>) {
    forall i, j :: 0 <= i < j < |ess| ==> ess[i] == [] || ess[j] == []
  }

  ghost predicate PrefixesOf(ess: seq<seq<Utxo>>, spare: seq<Utxo>) {
    forall es :: es in ess ==> es <= spare
  }

  lemma {:induction false} FlattenedMembers(ess: seq<seq<Utxo>>)
    ensures forall es, u :: es in ess && u in es ==> u in Flatten(ess)
    ensures (forall es :: es in ess ==> es == []) ==> Flatten(ess) == []
  {
    if ess != [] {
      FlattenedMembers(ess[1..]);
      assert ess == [ess[0]] + ess[1..];
      assert ess[0] in ess && forall es :: es in ess[1..] ==> es in ess;
    }
  }

  /** Two levels that both add coins add the first spare coin twice. */
  lemma BothAddTheFirst(first: seq<Utxo>, rest: seq<seq<Utxo>>, j: nat, spare: seq<Utxo>)
    requires first != [] && j < |rest| && rest[j] != [] && first <= spare && rest[j] <= spare
    ensures !NoDup(Outpoints(first + Flatten(rest))) && !AtMostOneLevelAdds([first] + rest)
  {
    hide NoDup;
    FlattenedMembers(rest);
    assert rest[j] in rest && rest[j][0] in rest[j] && first[0] == rest[j][0];
    OutpointListed(first, first[0]);
    OutpointListed(Flatten(rest), first[0]);
    assert Outpoints(first + Flatten(rest)) == Outpoints(first) + Outpoints(Flatten(rest));
    NoDupAppend(Outpoints(first), Outpoints(Flatten(rest)));
    assert ([first] + rest)[0] == first && ([first] + rest)[j + 1] == rest[j];
  }

  lemma PrefixIsDistinct(us: seq<Utxo>, spare: seq<Utxo>)
    requires us <= spare && NoDup(Outpoints(spare))
    ensures NoDup(Outpoints(us))
  {
    assert Outpoints(us) == Outpoints(spare)[..|us|];
  }

  /** Prefixes of one duplicate-free list are disjoint only if all but one are empty. */
  lemma {:induction false} PrefixesDistinct(ess: seq<seq<Utxo>>, spare: seq<Utxo>)
    requires PrefixesOf(ess, spare) && NoDup(Outpoints(spare))
    ensures NoDup(Outpoints(Flatten(ess))) <==> AtMostOneLevelAdds(ess)
  {
    hide NoDup, Outpoints, AtMostOneLevelAdds;
    if ess != [] {
      var first, rest := ess[0], ess[1..];
      assert ess == [first] + rest;
      assert first in ess && forall es :: es in rest ==> es in ess;
      if j :| 0 <= j < |rest| && rest[j] != [] && first != [] {
        assert rest[j] in rest;
        BothAddTheFirst(first, rest, j, spare);
      } else {
        PrefixesDistinct(rest, spare);
        PrefixIsDistinct(first, spare);
        OneLevelAddsCons(first, rest);
        assert first + [] == first && [] + Flatten(rest) == Flatten(rest);
        OneLevelOnly(first, rest);
      }
    } else {
      NothingRepeats();
      NoLevelAdds();
    }
  }

  lemma NoLevelAdds()
    ensures AtMostOneLevelAdds([])
  {
  }

  /** A level that adds coins, with none below that does. */
  lemma OneLevelOnly(first: seq<Utxo>, rest: seq<seq<Utxo>>)
    requires first == [] || forall j :: 0 <= j < |rest| ==> rest[j] == []
    ensures first != [] ==> AtMostOneLevelAdds([first] + rest)
  {
  }

  lemma OneLevelAddsCons(first: seq<Utxo>, rest: seq<seq<Utxo>>)
    requires first == [] || forall j :: 0 <= j < |rest| ==> rest[j] == []
    ensures AtMostOneLevelAdds([first] + rest) <==> AtMostOneLevelAdds(rest)
    ensures first == [] || Flatten(rest) == []
  {
    var ess := [first] + rest;
    forall i, j | AtMostOneLevelAdds(ess) && 0 <= i < j < |rest| ensures rest[i] == [] || rest[j] == [] {
      assert ess[i + 1] == rest[i] && ess[j + 1] == rest[j];
    }
    FlattenedMembers(rest);
  }

  /** Every level's added coins are then a prefix of the same spare coins. */
  lemma {:induction false} LevelsAddPrefixes(fuel: nat, c: Context, scores: nat -> nat, score: nat, level: nat,
                                             w: Transfer)
    requires Aligned(w) && Compound(fuel, c, scores, level, w).Ok? && NoDup(Outpoints(c.index))
    requires forall l: nat :: scores(l) == score
    ensures PrefixesOf(ExtrasPerLevel(fuel, c, scores, level, w), Filter(Spare(c, score), c.index))
    decreases fuel
  {
    hide StepOf, Compound, IsHeavyStep, Filter, NoDup;
    var step := StepResult(fuel, c, scores, level, w);
    if step.Heavy? {
      var k := HeavyBatch(fuel, c, scores, level, w);
      LevelExtras(c, scores(level), w, step, k);
      LevelsAddPrefixes(fuel - 1, c, scores, score, level + 1, step.merged.tx);
    }
  }

  /** With a steady score a batch runs exactly when at most one of its levels adds coins. */
  lemma RunsIffOneLevelAdds(fuel: nat, c: Context, scores: nat -> nat, score: nat, w: Transfer, m: Coins, owner: Owner)
    requires Spendable(m, w) && WellFormed(w) && Unspent(m.Keys) && owner(c.r.change).Some?
    requires AtTheTop(c, w, m) && Compound(fuel, c, scores, 0, w).Ok?
    requires AllWellFormed(Compound(fuel, c, scores, 0, w).value)
    requires forall l: nat :: scores(l) == score
    ensures Replay(m, Compound(fuel, c, scores, 0, w).value, owner).Some?
      <==> AtMostOneLevelAdds(ExtrasPerLevel(fuel, c, scores, 0, w))
  {
    hide Compound, Replay, Spendable, WellFormed, NoDup, AtMostOneLevelAdds, PrefixesOf, StepOf;
    SpendableIsAligned(m, w);
    TopIndexIsDistinct(c, w, m);
    RunsIffExtrasDistinct(fuel, c, scores, w, m, owner);
    LevelsAddPrefixes(fuel, c, scores, score, 0, w);
    FilterIsSubsequence(Spare(c, score), c.index);
    MapSubsequence(UtxoOutpoint, Filter(Spare(c, score), c.index), c.index);
    SubsequenceNoDup(Outpoints(Filter(Spare(c, score), c.index)), Outpoints(c.index));
    PrefixesDistinct(ExtrasPerLevel(fuel, c, scores, 0, w), Filter(Spare(c, score), c.index));
  }
}
