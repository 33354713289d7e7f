/** A payment with change that is too heavy: two splits and a merge that pays the amount and the rest
    of the change. */
module MergeExample {
  import opened Arithmetic
  import opened Wrappers
  import opened Sequences
  import opened Model
  import opened Mass
  import opened Generate
  import opened Selection
  import opened Compounding
  import opened CompoundingFacts
  import opened CompoundingTheorems
  import opened BatchTheorems
  import opened FeeTheorems
  import opened FeeSufficiency
  import opened FewSpare
  import opened PaidAhead
  import opened StepSuccess
  import opened Completion
  import opened EndlessCompounding

  /** Three of the coins of the endless request, and one of 5 KAS. */
  const COINS := [Piece(0), Piece(1), Piece(2), CoinOf(3, 500_000_000)]
  const PAID := Context(PARAMS, REQUEST, COINS, COINS)
  const CHOICE := Selected(COINS, 119_600_000, 439_683_000)

  /* ----- the estimates ----- */

  lemma EstimatesAre(n: nat, outs: nat)
    requires outs >= 1 && n <= 10 && outs <= 2
    ensures EstimateOf(PARAMS, REQUEST, n, outs, 0) == 1000 * (94 + 29_900 * n + 423 * outs)
  {
    hide NormalizedMax, WorstMasses, FeeAt;
    MassOf(n, outs);
    FeeIsMass(94 + 29_900 * n + 423 * outs, U64_MAX);
  }

  lemma SizesAre()
    ensures PARAMS.Valid() && LeastHeavy(PARAMS, 0) == 4 && SplitSize(PARAMS, ADDRESS) == 3
  {
    InputsWeighTheSame();
    assert Weight(PARAMS, 0, 0) == 940;
    assert CeilDiv(99_060, 29_900) == 4 && 99_494 / 29_900 == 3;
  }

  /** Two splits cost 120.634, the merge 60.740 million sompi; the bound is not much above that. */
  lemma CostsAre()
    ensures PARAMS.Valid()
    ensures FeesToCome(PARAMS, REQUEST, 4, 0) == 242_020_000 && Levels(PARAMS, REQUEST, 4, 0) == 1
    ensures Floor(PARAMS, REQUEST, 4, 0) == 30_417_000 && SplitCosts(PARAMS, REQUEST, 4, 3, 2) == 120_634_000
  {
    hide EstimateOf, LeastHeavy, SplitSize, TopFee;
    SizesAre();
    EstimatesAre(1, 1);
    EstimatesAre(3, 1);
    TopFeeIs(3);
    TopFeeIs(2);
    assert CeilDiv(4, 3) == 2;
    assert FeesToCome(PARAMS, REQUEST, 2, 0) == 0 && Levels(PARAMS, REQUEST, 2, 0) == 0;
    assert SplitCosts(PARAMS, REQUEST, 4, 3, 0) == 0;
    assert SplitCosts(PARAMS, REQUEST, 4, 3, 1) == SplitCost(PARAMS, REQUEST, 3) == 90_217_000;
  }

  lemma TopFeeIs(n: nat)
    requires n <= 10
    ensures TopFee(PARAMS, REQUEST, n, 0) == 940_000 + 29_900_000 * n
  {
    hide NormalizedMax, WorstMasses, FeeAt;
    EstimatesAre(n, 2);
  }

  /* ----- the selection ----- */

  lemma WorthOfThree(k: nat)
    requires k <= 3
    ensures COINS[..k] == [Piece(0), Piece(1), Piece(2)][..k] && SumOf(Amount, COINS[..k]) == 60_317_000 * k
  {
    var pieces := [Piece(0), Piece(1), Piece(2)];
    assert COINS[..k] == pieces[..k];
    SumOfUniform(Amount, pieces[..k], 60_317_000);
  }

  lemma WorthOfFour()
    ensures COINS[..4] == COINS && SumOf(Amount, COINS) == 680_951_000
  {
    WorthOfThree(3);
    SumOfPrefix(Amount, COINS, 3);
  }

  lemma CoinsAreEligible(score: nat)
    ensures Candidates(PARAMS, REQUEST, COINS, score) == COINS
  {
    hide Filter;
    forall u | u in COINS ensures Eligible(PARAMS, REQUEST, score)(u) {
      assert !Unspendable(PARAMS.coinbaseMaturity, u, score) && REQUEST.from == [];
    }
    FilterAll(Eligible(PARAMS, REQUEST, score), COINS);
  }

  lemma TakesAll()
    ensures TakenAfter(REQUEST, COINS, 30_417_000, 0) == Ok(4)
  {
    hide SumOf;
    WorthOfThree(1);
    WorthOfThree(2);
    WorthOfThree(3);
    WorthOfFour();
    assert TakenFrom(REQUEST, COINS, 30_417_000, 4) == Ok(4);
    assert TakenFrom(REQUEST, COINS, 30_417_000, 3) == Ok(4);
    assert TakenFrom(REQUEST, COINS, 30_417_000, 2) == Ok(4);
  }

  lemma SelectsAll(score: nat)
    ensures Select(PARAMS, REQUEST, COINS, score) == Ok(CHOICE)
  {
    hide Filter, EstimateFee, Candidates, TakenAfter, Select;
    CoinsAreEligible(score);
    WorthOfOne(Piece(0));
    Estimate([Piece(0)], 119_600_000, U64_MAX);
    assert COINS[0] == Piece(0);
    TakesAll();
    WorthOfFour();
    SelectSettles(PARAMS, REQUEST, COINS, score, COINS, 30_417_000, 121_668_000);
  }

  lemma CoinsAreDistinct()
    ensures NoDup(Map(UtxoOutpoint, Available(REQUEST, COINS)))
  {
    var outpoints := Map(UtxoOutpoint, COINS);
    forall i | 0 <= i < 4 ensures outpoints[i].transactionId == NodeTx(i) {
    }
  }

  /* ----- the run ----- */

  lemma ChoiceProvides()
    ensures SelectionProvides(PARAMS, REQUEST, CHOICE)
  {
    hide EstimateBound, LeastHeavy, SplitSize, FeesToCome, Floor, SumOf, NormalizedMax, WorstMasses;
    SizesAre();
    CostsAre();
    MassOf(4, 2);
    BoundIs();
    WorthOfFour();
  }

  lemma BoundIs()
    ensures EstimateBound(PARAMS, 4, 0) == NormalizedMax(PARAMS, WorstMasses(PARAMS, 4, 2, 0))
  {
    hide NormalizedMax, WorstMasses;
  }

  lemma OriginalOf()
    ensures
      var w := Original(PARAMS, REQUEST, CHOICE);
      && w.Ok? && Aligned(w.value) && |w.value.Body().outputs| == 2 && w.value.Body().payload == []
      && ComputeMass(PARAMS, w.value.Body()) == 120_518 && TotalIn(w.value) == 680_951_000
      && |w.value.Body().inputs| == 4
  {
    hide Generated, FeeMass, ComputeMass, Uniform, SumOf;
    var ys := [Payment(RECIPIENT, 119_600_000), Payment(ADDRESS, 439_683_000)];
    assert OriginalPayments(REQUEST, CHOICE) == ys;
    Built(ys, COINS);
    WorthOfFour();
  }

  /** The level: two splits, and a merge that pays the recipient and 3.79977 KAS of change. */
  lemma LevelPaysChange(w: Transfer, score: nat)
    requires Provided(PAID, w) && |w.Body().inputs| == 4 && TotalIn(w) == 680_951_000 && w.Body().payload == []
    requires ComputeMass(PARAMS, w.Body()) == 120_518
    ensures StepOf(PAID, score, w).Ok? && StepOf(PAID, score, w).value.Heavy?
    ensures
      var step := StepOf(PAID, score, w).value;
      && |step.splits| == 2 && step.merged.extras == []
      && step.merged.tx.Body().outputs == [
           Output(119_600_000, PayToAddressScript(RECIPIENT), None),
           Output(379_977_000, PayToAddressScript(ADDRESS), None)]
      && Provided(PAID, step.merged.tx) && |step.merged.tx.Body().inputs| == 2 && step.merged.tx.Body().payload == []
  {
    hide StepOf, ComputeMass, CheckFeeRate, Provided, TotalIn, SplitSize, LeastHeavy, SplitCosts, MergeFee, Uniform,
      Uncapped, Sane, Generated, Merge, Splits, EstimateOf, SplitCounts, IsMergeOf, PayToAddressScript, MergeCoin;
    SizesAre();
    CostsAre();
    ProvidedIsSolvent(PAID, w);
    StepIsOk(PAID, score, w);
    StepsIff(PAID, score, w);
    var step := StepOf(PAID, score, w).value;
    var k := HeavyStep(PAID, score, w);
    MergeIsProvided(PAID, score, w, step, k);
    MergeFeeIff(PAID, step.splits, w);
    EstimatesAre(2, 2);
    var available, sent := MergeShape(PAID, score, step.splits, w);
    MergeOutputsAre(PAID, step.merged, step.splits, w, available, sent);
  }

  lemma MergeOutputsAre(c: Context, m: Merged, splits: seq<Transfer>, w: Transfer, available: nat, sent: nat)
    requires MergeAmounts(c, m, splits, w, available, sent) && available > sent
    ensures m.tx.Body().outputs == [
      Output(sent, PayToAddressScript(c.r.to), None), Output(available - sent, PayToAddressScript(c.r.change), None)]
  {
    hide Generated, MergeFee, SumOf, Uniform, PayToAddressScript;
    GeneratedShape(c.p, MergePayments(c.r, available, sent), Map(MergeCoin(c.r), splits) + m.extras, w.Body().payload);
  }

  /** Two inputs are light. */
  lemma TwoAreLight(w: Transfer, score: nat)
    requires Provided(PAID, w) && |w.Body().inputs| == 2 && w.Body().payload == []
    ensures Aligned(w) && StepOf(PAID, score, w) == Ok(Light)
  {
    hide StepOf, ComputeMass, CheckFeeRate, Provided, TotalIn, SplitSize, LeastHeavy, Weight;
    SizesAre();
    StepIsOk(PAID, score, w);
    ProvidedIsSolvent(PAID, w);
    HeavyIffMany(PARAMS, 2, 0);
  }

  lemma RunIsThree(w: Transfer, fuel: nat, scores: nat -> nat)
    requires fuel >= 1 && Provided(PAID, w) && |w.Body().inputs| == 4 && TotalIn(w) == 680_951_000
    requires w.Body().payload == [] && ComputeMass(PARAMS, w.Body()) == 120_518
    ensures Aligned(w) && Compound(fuel, PAID, scores, 0, w).Ok?
    ensures
      var batch := Compound(fuel, PAID, scores, 0, w).value;
      && |batch| == 3
      && batch[2].Body().outputs == [
           Output(119_600_000, PayToAddressScript(RECIPIENT), None),
           Output(379_977_000, PayToAddressScript(ADDRESS), None)]
  {
    hide *;
    ProvidedIsSolvent(PAID, w);
    OneLevel();
    LevelPaysChange(w, scores(0));
    CompletesWhenProvided(fuel, PAID, scores, 0, w);
    var k := HeavyBatch(fuel, PAID, scores, 0, w);
    var merge := StepOf(PAID, scores(0), w).value.merged.tx;
    TwoAreLight(merge, scores(1));
    LightBatch(fuel - 1, PAID, scores, 1, merge);
  }

  lemma OneLevel()
    ensures PARAMS.Valid() && PAID.p == PARAMS && PAID.r == REQUEST && Levels(PARAMS, REQUEST, 4, 0) == 1
  {
    CostsAre();
  }

  /** All four coins are taken, for a transaction with change; compounding makes three transactions of
      it, the last of which has change as well. */
  lemma PaysWithChange(score: nat, fuel: nat, scores: nat -> nat)
    requires fuel >= 1
    ensures Select(PARAMS, REQUEST, COINS, score) == Ok(CHOICE)
    ensures
      var w := Original(PARAMS, REQUEST, CHOICE);
      && w.Ok? && Aligned(w.value) && ComputeMass(PARAMS, w.value.Body()) == 120_518
      && Compound(fuel, PAID, scores, 0, w.value).Ok?
      && var batch := Compound(fuel, PAID, scores, 0, w.value).value;
      && |batch| == 3
      && batch[2].Body().outputs == [
           Output(119_600_000, PayToAddressScript(RECIPIENT), None),
           Output(379_977_000, PayToAddressScript(ADDRESS), None)]
  {
    hide *;
    SelectsAll(score);
    OriginalProvides(score);
    OriginalOf();
    RunIsThree(Original(PARAMS, REQUEST, CHOICE).value, fuel, scores);
  }

  lemma OriginalProvides(score: nat)
    ensures Original(PARAMS, REQUEST, CHOICE).Ok? && Provided(PAID, Original(PARAMS, REQUEST, CHOICE).value)
  {
    hide Select, Original, NoDup, SelectionProvides, Available, Provided;
    SelectsAll(score);
    CoinsAreDistinct();
    ChoiceProvides();
    OriginalIsProvided(PARAMS, REQUEST, COINS, score, CHOICE);
  }
}
