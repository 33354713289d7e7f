/** A request whose batch spends a coin twice: the wallet of the endless request, with 0.9 KAS in its
    last coin. The first level adds both spare coins, the second adds the first of them again, and
    the third transaction is light, so the compounding ends. */
module DoubleSpendExample {
  import opened Wrappers
  import opened Sequences
  import opened Model
  import opened Mass
  import opened Generate
  import opened Selection
  import opened Compounding
  import opened CompoundingFacts
  import opened CompoundingTheorems
  import opened BatchTheorems
  import opened ExtrasTheorems
  import opened Termination
  import opened EndlessCompounding

  const LAST := 90_000_000
  const RICH := ContextOf(LAST)

  /** The second level falls 0.30023 KAS short, which the first spare coin makes up for alone. */
  lemma SecondLevel(w: Transfer, score: nat)
    requires FourInputs(w, LAST)
    ensures
      var step := StepOf(RICH, score, w);
      step.Ok? && step.value.Heavy? && step.value.merged.extras == [Piece(4)] && ThreeInputs(step.value.merged.tx)
  {
    hide Splits, SplitCounts, Merge, CheckFeeRate, FourInputs, Generated, Left;
    FourPayEnough(w, LAST);
    FourSplitCounts(w, LAST);
    var splits := FourSplits(w, LAST);
    TwoMerge(w, LAST, LAST, score, splits, 59_583_000, [Piece(4)]);
    var us := Map(MergeCoin(REQUEST), splits) + [Piece(4)];
    ThreeWorth(splits, us);
    ThreeMake(us);
    FourIsHeavy(w, LAST);
  }

  lemma ThreeWorth(splits: seq<Transfer>, us: seq<Utxo>)
    requires |splits| == 2 && Left(MergeCoin(REQUEST)(splits[0]), 90_734_000)
    requires Left(MergeCoin(REQUEST)(splits[1]), 59_583_000)
    requires us == Map(MergeCoin(REQUEST), splits) + [Piece(4)]
    ensures |us| == 3 && WorthOf(us) == 210_634_000
  {
    assert us[1..][1..] == [us[2]];
    WorthOfCons(us);
    WorthOfCons(us[1..]);
    WorthOfOne(us[2]);
  }

  /** Three inputs that pay 1000 sompi and more for each of 90206 grams: light enough to stand. */
  ghost predicate ThreeInputs(w: Transfer) {
    && Aligned(w) && Fee(w) == 91_034_000
    && ComputeMass(PARAMS, w.Body()) == FeeMass(PARAMS, w.Body()) == 90_206
  }

  lemma ThreeMake(us: seq<Utxo>)
    requires |us| == 3 && Derivable(us) && WorthOf(us) == 210_634_000
    ensures
      var t := Generated(PARAMS, [Payment(RECIPIENT, 119_600_000)], us, []);
      t.Ok? && ThreeInputs(t.value)
  {
    hide FeeMass, ComputeMass, Generated, Derivable, SumOf;
    var ys := [Payment(RECIPIENT, 119_600_000)];
    Built(ys, us);
    PaymentsTotal(ys);
    CoinsAre(Generated(PARAMS, ys, us, []).value, ys, us);
  }

  lemma ThirdLevel(w: Transfer, score: nat)
    requires ThreeInputs(w)
    ensures Aligned(w) && StepOf(RICH, score, w) == Ok(Light)
  {
    hide FeeMass, ComputeMass;
  }

  /** A heavy level over a batch. */
  lemma HeavyOver(fuel: nat, c: Context, scores: nat -> nat, level: nat, w: Transfer)
    requires Aligned(w) && StepOf(c, scores(level), w).Ok? && StepOf(c, scores(level), w).value.Heavy?
    requires Compound(fuel, c, scores, level + 1, StepOf(c, scores(level), w).value.merged.tx).Ok?
    ensures Compound(fuel + 1, c, scores, level, w).Ok?
  {
    hide StepOf;
  }

  /** Two levels, seen from the first: what they add. */
  lemma TwoLevels(scores: nat -> nat, w: Transfer)
    requires FourInputs(w, 60_317_000) && Aligned(w)
    ensures Compound(2, RICH, scores, 0, w).Ok?
    ensures AllExtras(2, RICH, scores, 0, w) == SpareOf(LAST) + [Piece(4)]
  {
    hide StepOf, FourInputs, ThreeInputs, AllExtras, Compound, Aligned;
    FourBecomeFour(w, LAST, scores(0));
    var second := StepOf(RICH, scores(0), w).value.merged.tx;
    LastLevels(scores, second);
    HeavyOver(1, RICH, scores, 0, w);
    ExtrasUnfold(1, RICH, scores, 0, w);
  }

  lemma LastLevels(scores: nat -> nat, second: Transfer)
    requires FourInputs(second, LAST)
    ensures Aligned(second) && Compound(1, RICH, scores, 1, second).Ok?
    ensures AllExtras(1, RICH, scores, 1, second) == [Piece(4)]
  {
    hide StepOf, FourInputs, ThreeInputs, AllExtras, Compound, Aligned;
    FourIsHeavy(second, LAST);
    SecondLevel(second, scores(1));
    var third := StepOf(RICH, scores(1), second).value.merged.tx;
    ThirdLevel(third, scores(2));
    LightBatch(0, RICH, scores, 2, third);
    HeavyOver(0, RICH, scores, 1, second);
    ExtrasUnfold(0, RICH, scores, 1, second);
  }

  /** Whatever scores the node reports, the request is accepted and its batch spends a coin twice. */
  lemma SpendsACoinTwice(score: nat, scores: nat -> nat)
    ensures Select(PARAMS, REQUEST, RICH.index, score) == Ok(Selected(SELECTED, 119_600_000, 0))
    ensures
      var w := Original(PARAMS, REQUEST, Selected(SELECTED, 119_600_000, 0));
      && w.Ok? && Aligned(w.value)
      && Compound(2, RICH, scores, 0, w.value).Ok?
      && !NoDup(Outpoints(AllExtras(2, RICH, scores, 0, w.value)))
      && SpendsTwice(Compound(2, RICH, scores, 0, w.value).value)
  {
    hide Select, Compound, FourInputs, Original, AllExtras, SpendsTwice;
    assert REQUEST.(maxFee := U64_MAX) == REQUEST;
    SelectsFour(SpareOf(LAST), U64_MAX, score);
    OriginalIsFour(U64_MAX);
    var w := Original(PARAMS, REQUEST, Selected(SELECTED, 119_600_000, 0)).value;
    TwoLevels(scores, w);
    var added := Outpoints(AllExtras(2, RICH, scores, 0, w));
    assert added[0] == added[2];
    IndexIsDistinct();
    RepeatedExtraIsSpentTwice(2, RICH, scores, 0, w);
  }

  lemma IndexIsDistinct()
    ensures NoDup(Outpoints(RICH.index))
  {
    forall i | 0 <= i < 6 ensures Outpoints(RICH.index)[i].transactionId == NodeTx(i) {
    }
  }
}
