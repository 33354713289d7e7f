/** Requests whose compounding succeeds: what the selected coins must be worth, together and each,
    for every split and every merge of every level to go through. */
module Completion {
  import opened Arithmetic
  import opened Wrappers
  import opened Sequences
  import opened Model
  import opened Mass
  import opened Generate
  import opened Selection
  import opened Compounding
  import opened CompoundingFacts
  import opened BatchTheorems
  import opened FeeTheorems
  import opened FeeSufficiency
  import opened FewSpare
  import opened Ledger
  import opened PaidAhead
  import opened SelectionTheorems
  import opened StepSuccess
  import opened Termination

  /* ----- what a split costs for each of its inputs ----- */

  lemma CeilScales(x: real, big: real, n: nat)
    requires x >= 0.0 && big <= n as real * x
    ensures 0 <= Ceil(x) && Ceil(big) <= n * Ceil(x)
  {
    hide Ceil;
    CeilBounds(x);
    CeilAtLeastZero(x);
    TimesReal(x, Ceil(x) as real, n as real);
    TimesSwap(n as real, x);
    assert (n * Ceil(x)) as real == Ceil(x) as real * n as real;
    CeilLeast(big, n * Ceil(x));
  }

  lemma CeilAtLeastZero(x: real)
    requires x >= 0.0
    ensures Ceil(x) >= 0
  {
    CeilBounds(x);
  }

  lemma TimesSwap(a: real, b: real)
    ensures a * b == b * a
  {
  }

  /** Capped or not, the fee for `n` times the mass is at most `n` fees. */
  lemma FeeScales(one: nat, big: nat, n: nat, rate: real, maxFee: U64)
    requires rate >= 0.0 && n >= 1 && big <= n * one
    ensures FeeAt(big, rate, maxFee) <= n * FeeAt(one, rate, maxFee)
  {
    hide *;
    var x, y := one as real * rate, big as real * rate;
    TimesReal(0.0, one as real, rate);
    ScaledRate(one, big, n, rate);
    CeilScales(x, y, n);
    FeeAtIs(one, rate, maxFee);
    FeeAtIs(big, rate, maxFee);
    CappedScales(x, y, n, maxFee);
  }

  lemma ScaledRate(one: nat, big: nat, n: nat, rate: real)
    requires rate >= 0.0 && big <= n * one
    ensures big as real * rate <= n as real * (one as real * rate)
  {
    hide *;
    ProductAsReal(n, one);
    TimesReal(big as real, n as real * one as real, rate);
    RealAssociates(n as real, one as real, rate);
    TimesSwap(one as real * rate, n as real);
  }

  lemma CappedScales(x: real, y: real, n: nat, maxFee: U64)
    requires n >= 1 && 0 <= Ceil(x) && Ceil(y) <= n * Ceil(x)
    ensures Min(AsU64(y), maxFee) <= n * Min(AsU64(x), maxFee)
  {
    hide Ceil;
    var a := Ceil(x);
    TimesMonotone(1, n, maxFee);
    TimesMonotone(1, n, U64_MAX);
    TimesMonotone(1, n, a);
  }

  /** A split costs at most as much for each of its inputs as a split of one input. */
  lemma SplitCostScales(p: Params, r: Request, n: nat)
    requires p.Valid() && r.rate >= 0.0 && n >= 1
    ensures SplitCost(p, r, n) <= n * SplitCost(p, r, 1)
  {
    hide NormalizedMax, WorstMasses, FeeAt;
    MassesScale(p, n, 1, 1, 1, 0);
    NormalizedMaxScales(p, WorstMasses(p, 1, 1, 0), WorstMasses(p, n, 1, 0), n);
    var one, all := NormalizedMax(p, WorstMasses(p, 1, 1, 0)), NormalizedMax(p, WorstMasses(p, n, 1, 0));
    FeeScales(one, all, n, r.rate, r.maxFee);
  }

  lemma EstimateIsAtMost(p: Params, r: Request, n: nat, outs: nat, len: nat)
    requires p.Valid() && r.rate >= 0.0 && outs <= 2
    ensures EstimateOf(p, r, n, outs, len) <= TopFee(p, r, n, len)
  {
    hide NormalizedMax, WorstMasses, FeeAt;
    WorstGrows(p, n, outs, len, n, 2, len);
    NormalizedMaxScales(p, WorstMasses(p, n, 2, len), WorstMasses(p, n, outs, len), 1);
    FeeGrows(NormalizedMax(p, WorstMasses(p, n, outs, len)), EstimateBound(p, n, len), r.rate, r.maxFee);
  }

  /* ----- what each input must be worth ----- */

  /** How many levels compounding `n` inputs takes at most. */
  function Levels(p: Params, r: Request, n: nat, len: nat): nat
    requires p.Valid()
    decreases n
  {
    var k := SplitSize(p, r.change);
    if n < LeastHeavy(p, len) || n < 2 || k < 2 then 0
    else
      assert CeilDiv(n, k) < n by { CeilShrinks(n, k); }
      1 + Levels(p, r, CeilDiv(n, k), len)
  }

  /** The fee of a split of its own, once for each level to come. */
  function Floor(p: Params, r: Request, n: nat, len: nat): nat
    requires p.Valid()
  {
    Times(Levels(p, r, n, len), SplitCost(p, r, 1))
  }

  /** Coins whose paths exist, each worth at least so much. */
  ghost predicate Worthwhile(us: seq<Utxo>, least: nat) {
    forall u :: u in us ==> Amount(u) >= least && u.address.index < 0x8000_0000
  }

  lemma {:induction false} WorthAtLeast(us: seq<Utxo>, least: nat)
    requires forall u :: u in us ==> Amount(u) >= least
    ensures WorthOf(us) >= |us| * least
  {
    if us != [] {
      WorthAtLeast(us[1..], least);
      Distribute(|us| - 1, least);
    }
  }

  /** A slice of such coins pays for its split and leaves at least what one of them had left. */
  lemma SliceLeaves(p: Params, r: Request, us: seq<Utxo>, levels: nat)
    requires p.Valid() && r.rate >= 0.0 && us != []
    requires Worthwhile(us, Times(levels + 1, SplitCost(p, r, 1)))
    ensures Derivable(us)
    ensures WorthOf(us) >= SplitCost(p, r, |us|) + Times(levels, SplitCost(p, r, 1))
  {
    hide SplitCost;
    var n, one := |us|, SplitCost(p, r, 1);
    WorthAtLeast(us, (levels + 1) * one);
    SplitCostScales(p, r, n);
    Distribute(levels, one);
    TimesMonotone(1, n, levels * one);
    TimesPlus(n, levels * one, one);
  }

  lemma SliceIsWorthwhile(w: Transfer, k: nat, j: nat, least: nat)
    requires Aligned(w) && Worthwhile(CoinsOf(w), least)
    ensures Worthwhile(SliceNo(w, k, j), least)
  {
    SliceBounds(w, k, j);
  }

  /* ----- one level ----- */

  /** A transaction that can be compounded all the way: splits hold two inputs at least, the cap
      leaves room, the inputs pay ahead together, and each pays for itself. */
  ghost predicate Provided(c: Context, w: Transfer) {
    && Sane(c.p, c.r) && SplitSize(c.p, c.r.change) >= 2 && LeastHeavy(c.p, |w.Body().payload|) >= 2
    && Aligned(w) && w.Body().inputs != [] && 1 <= |w.Body().outputs| <= 2
    && PaidFor(c, w) && Uncapped(c, w) && CheckFeeRate(c.p, w).Pass?
    && c.r.changeWallet.index < 0x8000_0000
    && Worthwhile(CoinsOf(w), Floor(c.p, c.r, |w.Body().inputs|, |w.Body().payload|))
  }

  lemma ProvidedIsSolvent(c: Context, w: Transfer)
    requires Provided(c, w)
    ensures Solvent(c, |w.Body().payload|) && Sane(c.p, c.r) && c.p.Valid() && PaidFor(c, w)
    ensures WithinWorst(c.p, w) && Aligned(w) && Uniform(c.p, w.Body()) && Uncapped(c, w) && w.Body().inputs != []
  {
  }

  lemma HeavyHasLevels(c: Context, w: Transfer)
    requires Provided(c, w) && ComputeMass(c.p, w.Body()) >= MAXIMUM_STANDARD_TRANSACTION_MASS
    ensures
      var n, len, k := |w.Body().inputs|, |w.Body().payload|, SplitSize(c.p, c.r.change);
      && n >= LeastHeavy(c.p, len) && n >= 2 && k >= 2
      && 0 < CeilDiv(n, k) < n
      && Levels(c.p, c.r, n, len) == 1 + Levels(c.p, c.r, CeilDiv(n, k), len)
  {
    hide ComputeMass, SplitSize, LeastHeavy, Uniform, Uncapped, CheckFeeRate, CeilDiv, Weight, Worthwhile, CoinsOf,
      Sane, FeesToCome, Floor;
    SaneIsValid(c.p, c.r);
    HeavyIffMany(c.p, |w.Body().inputs|, |w.Body().payload|);
    CeilShrinks(|w.Body().inputs|, SplitSize(c.p, c.r.change));
  }

  lemma AllAffordable(c: Context, w: Transfer)
    requires Provided(c, w) && ComputeMass(c.p, w.Body()) >= MAXIMUM_STANDARD_TRANSACTION_MASS
    ensures
      var k := SplitSize(c.p, c.r.change);
      k >= 2 && Affordable(c.p, c.r, w, k, CeilDiv(|w.Body().inputs|, k))
  {
    hide ComputeMass, SplitSize, LeastHeavy, Uniform, Uncapped, CheckFeeRate, CeilDiv, Worthwhile, CoinsOf, PaidFor,
      Levels, SplitCost, Times, SliceNo, WorthOf, Sane, Derivable;
    SaneIsValid(c.p, c.r);
    HeavyHasLevels(c, w);
    var n, len, k := |w.Body().inputs|, |w.Body().payload|, SplitSize(c.p, c.r.change);
    RangesPartition(n, k, 0);
    forall j | 0 <= j < CeilDiv(n, k)
      ensures Derivable(SliceNo(w, k, j)) && SplitCost(c.p, c.r, |SliceNo(w, k, j)|) <= WorthOf(SliceNo(w, k, j))
    {
      SliceExtends(w, k, j);
      SliceIsWorthwhile(w, k, j, Floor(c.p, c.r, n, len));
      SliceLeaves(c.p, c.r, SliceNo(w, k, j), Levels(c.p, c.r, CeilDiv(n, k), len));
    }
  }

  lemma LevelIsPaid(c: Context, score: nat, w: Transfer)
    requires Provided(c, w) && ComputeMass(c.p, w.Body()) >= MAXIMUM_STANDARD_TRANSACTION_MASS
    ensures c.p.Valid() && Aligned(w) && w.Body().inputs != [] && LevelPays(c, score, w)
  {
    hide ComputeMass, SplitSize, LeastHeavy, Uniform, CheckFeeRate, CeilDiv, Worthwhile, CoinsOf, Levels, SplitCost,
      Times, SliceNo, WorthOf, Sane, Derivable, TopFee, Uncapped, EstimateOf, Splits, LeftForMerge, TotalFees,
      LeftBySplits, Affordable, FeesToCome, SpareCovers, Floor, WithinWorst, Aligned, TotalIn;
    ProvidedIsSolvent(c, w);
    HeavyHasLevels(c, w);
    AllAffordable(c, w);
    var n, len, k := |w.Body().inputs|, |w.Body().payload|, SplitSize(c.p, c.r.change);
    var m := CeilDiv(n, k);
    AllSplitsIff(c, w, k);
    var splits := Splits(c.p, c.r, w, k, m).value;
    RangesPartition(n, k, 0);
    SplitsCostAtMost(c.p, c.r, w, k, m);
    LeftIsWhatRemains(c, w, k, splits);
    FeesUnfold(c.p, c.r, n, len);
    EstimateIsAtMost(c.p, c.r, m, if LeftBySplits(c, w) > c.r.amount then 2 else 1, len);
  }

  lemma LeftIsWhatRemains(c: Context, w: Transfer, k: nat, splits: seq<Transfer>)
    requires Sane(c.p, c.r) && Aligned(w) && Uniform(c.p, w.Body()) && Uncapped(c, w) && w.Body().inputs != []
    requires k == SplitSize(c.p, c.r.change) > 0
    requires Splits(c.p, c.r, w, k, CeilDiv(|w.Body().inputs|, k)) == Ok(splits)
    ensures LeftBySplits(c, w) == TotalIn(w) - TotalFees(splits)
  {
    hide Splits, CeilDiv, SplitSize, Uniform, Uncapped, SplitCosts, TotalFees, Sane, Affordable, TotalIn;
    SaneIsValid(c.p, c.r);
    LastSplitStartsInside(|w.Body().inputs|, k);
    SplitsIff(c, w, k, CeilDiv(|w.Body().inputs|, k));
  }

  /* ----- the merge ----- */

  lemma WorthwhileCopy(us: seq<Utxo>, vs: seq<Utxo>, least: nat)
    requires |us| == |vs| && Worthwhile(vs, least)
    requires forall i :: 0 <= i < |us| ==> Amount(us[i]) == Amount(vs[i]) && us[i].address == vs[i].address
    ensures Worthwhile(us, least)
  {
    forall u | u in us ensures Amount(u) >= least && u.address.index < 0x8000_0000 {
      var i :| 0 <= i < |us| && us[i] == u;
      assert vs[i] in vs;
    }
  }

  lemma {:induction false} SplitAt(p: Params, r: Request, w: Transfer, k: nat, i: nat, j: nat)
    requires Aligned(w) && Splits(p, r, w, k, i).Ok? && j < i
    ensures |Splits(p, r, w, k, i).value| == i && SplitOf(p, r, SliceNo(w, k, j)) == Ok(Splits(p, r, w, k, i).value[j])
  {
    hide SplitOf, Splits, SliceNo, CheckFeeRate;
    SplitsAre(p, r, w, k, i);
    if j < i - 1 {
      SplitAt(p, r, w, k, i - 1, j);
    }
  }

  lemma MergeCoinIs(r: Request, s: Transfer)
    requires s.Body().outputs != []
    ensures Amount(MergeCoin(r)(s)) == s.Body().outputs[0].value && MergeCoin(r)(s).address == r.changeWallet
  {
  }

  /** What each split leaves can pay for the levels that remain. */
  lemma SplitsLeaveEnough(c: Context, w: Transfer, splits: seq<Transfer>)
    requires Provided(c, w) && ComputeMass(c.p, w.Body()) >= MAXIMUM_STANDARD_TRANSACTION_MASS
    requires
      var k := SplitSize(c.p, c.r.change);
      k >= 2 && Splits(c.p, c.r, w, k, CeilDiv(|w.Body().inputs|, k)) == Ok(splits)
    ensures
      var m, len := CeilDiv(|w.Body().inputs|, SplitSize(c.p, c.r.change)), |w.Body().payload|;
      Worthwhile(Map(MergeCoin(c.r), splits), Floor(c.p, c.r, m, len))
  {
    hide ComputeMass, SplitSize, LeastHeavy, Uniform, CheckFeeRate, CeilDiv, CoinsOf, Levels, SplitCost, Uncapped,
      Times, SliceNo, WorthOf, Sane, Derivable, Splits, SplitOf, PaidFor, MergeCoin, Aligned, PayToAddressScript, Fee;
    ProvidedIsSolvent(c, w);
    HeavyHasLevels(c, w);
    var n, len, k := |w.Body().inputs|, |w.Body().payload|, SplitSize(c.p, c.r.change);
    var m := CeilDiv(n, k);
    RangesPartition(n, k, 0);
    SplitsAre(c.p, c.r, w, k, m);
    var coins, least := Map(MergeCoin(c.r), splits), Floor(c.p, c.r, m, len);
    forall u | u in coins ensures Amount(u) >= least && u.address.index < 0x8000_0000 {
      var j :| 0 <= j < |coins| && coins[j] == u;
      SplitAt(c.p, c.r, w, k, m, j);
      SliceExtends(w, k, j);
      SliceIsWorthwhile(w, k, j, Floor(c.p, c.r, n, len));
      SliceLeaves(c.p, c.r, SliceNo(w, k, j), Levels(c.p, c.r, m, len));
      SplitsOffIff(c.p, c.r, SliceNo(w, k, j));
      MergeCoinIs(c.r, splits[j]);
    }
  }

  lemma MergeIsWorthwhile(c: Context, score: nat, splits: seq<Transfer>, w: Transfer, least: nat)
    requires w.Body().inputs != [] && Merge(c, score, splits, w).Ok? && Merge(c, score, splits, w).value.extras == []
    requires Worthwhile(Map(MergeCoin(c.r), splits), least)
    ensures
      var merge := Merge(c, score, splits, w).value.tx;
      && Aligned(merge) && |merge.Body().inputs| == |splits| && Worthwhile(CoinsOf(merge), least)
      && 1 <= |merge.Body().outputs| <= 2
  {
    hide CoinsOf, Worthwhile, MergeCoin, Merge, Generated, IsMergeOf, MergePayments, SumOf;
    var merge, coins := Merge(c, score, splits, w).value.tx, Map(MergeCoin(c.r), splits);
    var available, sent := MergeShape(c, score, splits, w);
    MergedPays(c, Merge(c, score, splits, w).value, splits, w, available, sent);
    assert coins + [] == coins;
    CoinsOfBuilt(c.p, MergePayments(c.r, available, sent), coins, w.Body().payload);
    WorthwhileCopy(CoinsOf(merge), coins, least);
    assert |CoinsOf(merge)| == |splits|;
  }

  lemma MergeIsProvided(c: Context, score: nat, w: Transfer, step: Step, k: nat)
    requires Provided(c, w) && ComputeMass(c.p, w.Body()) >= MAXIMUM_STANDARD_TRANSACTION_MASS
    requires step.Heavy? && IsHeavyStep(c, score, w, step.splits, step.merged, k)
    ensures step.merged.extras == [] && Provided(c, step.merged.tx)
    ensures step.merged.tx.Body().payload == w.Body().payload
    ensures k == SplitSize(c.p, c.r.change) && |step.merged.tx.Body().inputs| == CeilDiv(|w.Body().inputs|, k)
  {
    hide ComputeMass, SplitSize, LeastHeavy, Uniform, CheckFeeRate, CeilDiv, CoinsOf, Floor, Worthwhile, Uncapped,
      Sane, Splits, SplitCounts, PaidFor, MergeCoin, Merge, Aligned;
    ProvidedIsSolvent(c, w);
    SplitSizeIs(c.p, c.r, w);
    LevelAddsNothing(c, score, w, step, k);
    MergeKeepsGoing(c, score, w, step, k);
    SplitsLeaveEnough(c, w, step.splits);
    MergeIsWorthwhile(c, score, step.splits, w, Floor(c.p, c.r, |step.splits|, |w.Body().payload|));
  }

  /* ----- the whole run ----- */

  lemma StepIsOk(c: Context, score: nat, w: Transfer)
    requires Provided(c, w)
    ensures Aligned(w) && StepOf(c, score, w).Ok?
    ensures StepOf(c, score, w).value.Heavy? <==> ComputeMass(c.p, w.Body()) >= MAXIMUM_STANDARD_TRANSACTION_MASS
  {
    hide StepOf, CheckFeeRate, ComputeMass, LevelPays, PaidFor, Worthwhile, CoinsOf, Uncapped, Sane, Floor, SplitSize,
      LeastHeavy;
    ProvidedIsSolvent(c, w);
    StepsIff(c, score, w);
    if ComputeMass(c.p, w.Body()) >= MAXIMUM_STANDARD_TRANSACTION_MASS {
      LevelIsPaid(c, score, w);
    }
  }

  lemma CompoundUnfold(fuel: nat, c: Context, scores: nat -> nat, level: nat, w: Transfer)
    requires Aligned(w) && StepOf(c, scores(level), w).Ok?
    ensures
      var step := StepOf(c, scores(level), w).value;
      && (step.Light? ==> Compound(fuel, c, scores, level, w) == Ok([w]))
      && (step.Heavy? && fuel > 0 ==>
            (Compound(fuel, c, scores, level, w).Ok? <==>
               Compound(fuel - 1, c, scores, level + 1, step.merged.tx).Ok?))
  {
    hide StepOf;
  }

  /** Compounding then goes through, whatever scores the node reports, within as many levels as its
      number of inputs calls for. */
  lemma {:induction false} CompletesWhenProvided(fuel: nat, c: Context, scores: nat -> nat, level: nat, w: Transfer)
    requires Provided(c, w) && fuel >= Levels(c.p, c.r, |w.Body().inputs|, |w.Body().payload|)
    ensures Compound(fuel, c, scores, level, w).Ok?
    decreases fuel
  {
    hide *;
    ProvidedIsSolvent(c, w);
    StepIsOk(c, scores(level), w);
    CompoundUnfold(fuel, c, scores, level, w);
    var step := StepOf(c, scores(level), w).value;
    if step.Heavy? {
      var k := HeavyStep(c, scores(level), w);
      MergeIsProvided(c, scores(level), w, step, k);
      HeavyHasLevels(c, w);
      CompletesWhenProvided(fuel - 1, c, scores, level + 1, step.merged.tx);
    }
  }

  /** The last transaction of such a run pays what is owed, and the change is whatever the inputs are
      worth beyond that and all the fees. */
  lemma PaysWhenProvided(fuel: nat, c: Context, scores: nat -> nat, level: nat, w: Transfer)
    requires Provided(c, w) && fuel >= Levels(c.p, c.r, |w.Body().inputs|, |w.Body().payload|) && PaysAsAsked(c.r, w)
    ensures Compound(fuel, c, scores, level, w).Ok?
    ensures
      var batch := Compound(fuel, c, scores, level, w).value;
      && GoodBatch(c, w, batch)
      && TotalOut(batch[|batch| - 1]) == TotalIn(w) - TotalFees(batch)
  {
    hide *;
    ProvidedIsSolvent(c, w);
    CompletesWhenProvided(fuel, c, scores, level, w);
    BatchIsGood(fuel, c, scores, level, w);
    AddsNothingWhenPaid(c, scores, level, w);
    NoneAdded(fuel, c, scores, level, w);
    BalanceIs(w, Compound(fuel, c, scores, level, w).value, c);
  }

  lemma BalanceIs(w: Transfer, batch: seq<Transfer>, c: Context)
    requires GoodBatch(c, w, batch)
    ensures batch != [] && (Balanced(w, [], batch) ==> TotalOut(batch[|batch| - 1]) == TotalIn(w) - TotalFees(batch))
  {
    NothingIsWorthless();
  }

  /* ----- from the selection ----- */

  /** A selection that can be compounded all the way, whatever fee each of its coins was charged. */
  ghost predicate SelectionProvides(p: Params, r: Request, s: Selected) {
    && Sane(p, r) && SplitSize(p, r.change) >= 2 && LeastHeavy(p, |r.payload|) >= 2
    && s.utxos != [] && r.changeWallet.index < 0x8000_0000
    && EstimateBound(p, |s.utxos|, |r.payload|) <= r.maxFee
    && WorthOf(s.utxos) >= Owed(r) + FeesToCome(p, r, |s.utxos|, |r.payload|)
    && Worthwhile(s.utxos, Floor(p, r, |s.utxos|, |r.payload|))
  }

  lemma OriginalPasses(p: Params, r: Request, index: seq<Utxo>, score: nat, s: Selected)
    requires Select(p, r, index, score) == Ok(s) && NoDup(Map(UtxoOutpoint, Available(r, index)))
    requires Sane(p, r) && s.utxos != [] && Original(p, r, s).Ok?
    requires EstimateBound(p, |s.utxos|, |r.payload|) <= r.maxFee
    ensures CheckFeeRate(p, Original(p, r, s).value).Pass?
  {
    SaneIsValid(p, r);
    hide *;
    var guess, first := RecipientGuess(r, s.utxos[0]), [s.utxos[0]];
    if EstimateMass(p, first, guess, r.payload).Ok? {
      EstimateWithinBound(p, first, guess, r.payload, |s.utxos|, |r.payload|);
    }
    OriginalPassesCheck(p, r, index, score);
  }

  lemma OriginalInputs(p: Params, r: Request, s: Selected, least: nat)
    requires Worthwhile(s.utxos, least)
    ensures Original(p, r, s).Ok?
    ensures
      var w := Original(p, r, s).value;
      && Aligned(w) && |w.Body().inputs| == |s.utxos| && w.Body().payload == r.payload
      && 1 <= |w.Body().outputs| <= 2 && Worthwhile(CoinsOf(w), least)
  {
    WorthwhileIsDerivable(s.utxos, least);
    hide Generated, CoinsOf, Worthwhile, SumOf, Derivable;
    var ys := OriginalPayments(r, s);
    BuildsIff(p, ys, s.utxos, r.payload);
    GeneratedShape(p, ys, s.utxos, r.payload);
    CoinsOfBuilt(p, ys, s.utxos, r.payload);
    WorthwhileCopy(CoinsOf(Original(p, r, s).value), s.utxos, least);
  }

  lemma OriginalIsProvided(p: Params, r: Request, index: seq<Utxo>, score: nat, s: Selected)
    requires Select(p, r, index, score) == Ok(s) && NoDup(Map(UtxoOutpoint, Available(r, index)))
    requires SelectionProvides(p, r, s)
    ensures Original(p, r, s).Ok? && Provided(Context(p, r, index, s.utxos), Original(p, r, s).value)
    ensures |Original(p, r, s).value.Body().inputs| == |s.utxos|
    ensures Original(p, r, s).value.Body().payload == r.payload
  {
    hide Select, Original, CheckFeeRate, NoDup, EstimateBound, Sane, SplitSize, LeastHeavy, FeesToCome, Floor, CoinsOf,
      Available, PaidFor, Worthwhile, Aligned, RealPayees, SumOf;
    SaneIsValid(p, r);
    OriginalInputs(p, r, s, Floor(p, r, |s.utxos|, |r.payload|));
    OriginalPasses(p, r, index, score, s);
    ChangePaysAhead(Context(p, r, index, s.utxos), s);
  }

  lemma WorthwhileIsDerivable(us: seq<Utxo>, least: nat)
    requires Worthwhile(us, least)
    ensures Derivable(us)
  {
  }

  lemma OriginalPaysAsAsked(p: Params, r: Request, index: seq<Utxo>, score: nat, s: Selected)
    requires Select(p, r, index, score) == Ok(s) && NoDup(Map(UtxoOutpoint, Available(r, index)))
    requires s.utxos != [] && Original(p, r, s).Ok?
    ensures PaysAsAsked(r, Original(p, r, s).value)
    ensures TotalIn(Original(p, r, s).value) == WorthOf(s.utxos)
  {
    hide Select, Generated, Uniform, Candidates, PerUtxoFee, Available, NoDup, SumOf;
    SelectionIsSound(p, r, index, score);
    var ys, w := OriginalPayments(r, s), Original(p, r, s).value;
    GeneratedShape(p, ys, s.utxos, r.payload);
    assert ys[0] == Payment(r.to, s.received);
    assert w.Body().outputs == Map(OutputFor, ys) && w.addressByOutputIndex == Map(PayeeOf, ys);
  }

  /** The last transaction of a good batch, and what it is to pay. */
  lemma LastIsGood(c: Context, w: Transfer, batch: seq<Transfer>)
    requires GoodBatch(c, w, batch)
    ensures batch != []
    ensures var last := batch[|batch| - 1]; PaysAsAsked(c.r, last) && last.Body().payload == w.Body().payload
  {
  }
}
