/** Every transaction of a batch, one by one: what it pays, what it weighs, and how the batch's
    values add up. */
module BatchTheorems {
  import opened Arithmetic
  import opened Wrappers
  import opened Sequences
  import opened Model
  import opened Mass
  import opened Generate
  import opened Selection
  import opened Compounding
  import opened CompoundingFacts
  import opened CompoundingTheorems
  import opened Ledger

  /* ----- splits stay within the mass limit ----- */

  /** A transaction that pays only the change address: its mass is the dummy's plus its inputs'. */
  lemma SplitMass(p: Params, r: Request, coins: seq<Utxo>)
    requires SplitOf(p, r, coins).Ok? && SplitOf(p, r, []).Ok?
    ensures ComputeMass(p, SplitOf(p, r, coins).value.Body())
      == ComputeMass(p, SplitOf(p, r, []).value.Body()) + |coins| * PerInput(p)
  {
    PayChangeMass(p, r, coins);
    PayChangeMass(p, r, []);
  }

  lemma PayChangeMass(p: Params, r: Request, coins: seq<Utxo>)
    requires SplitOf(p, r, coins).Ok?
    ensures ComputeMass(p, SplitOf(p, r, coins).value.Body())
      == p.blankMass + |coins| * PerInput(p) + p.outputMass + p.scriptByteMass * |PayToAddressScript(r.change).bytes|
  {
    hide EstimateFee, Generated, ComputeMass, PerInput;
    var s := SplitOf(p, r, coins).value;
    var total := SumOf(Amount, coins);
    var fee := if coins == [] then 0 else EstimateFee(p, coins, r.rate, r.maxFee, total, []).value;
    var payments := [Payment(r.change, total - fee)];
    GeneratedShape(p, payments, coins, []);
    UniformComputeMass(p, s.Body());
    OneOutputMass(p, s.Body().outputs[0]);
    assert s.Body().outputs == [s.Body().outputs[0]];
    assert |s.Body().inputs| == |coins|;
  }

  lemma OneOutputMass(p: Params, o: Output)
    ensures SumOf(OutputMass(p), [o]) == p.outputMass + p.scriptByteMass * |o.script.bytes|
  {
    assert [o][1..] == [];
  }

  /** All inputs of a wallet transaction weigh the same, so no split exceeds the standard limit. */
  lemma SplitWithinLimit(p: Params, r: Request, w: Transfer, coins: seq<Utxo>)
    requires Uniform(p, w.Body()) && SplitCounts(p, r, w).Ok? && |coins| <= SplitCounts(p, r, w).value.1
    requires SplitOf(p, r, coins).Ok?
    ensures ComputeMass(p, SplitOf(p, r, coins).value.Body()) <= MAXIMUM_STANDARD_TRANSACTION_MASS
  {
    var perInput := MassPerInputIs(p, r, w);
    var k := SplitCounts(p, r, w).value.1;
    hide ComputeMass, SplitOf;
    SplitMass(p, r, coins);
    TimesMonotone(|coins|, k, perInput);
  }

  lemma MassPerInputIs(p: Params, r: Request, w: Transfer) returns (perInput: nat)
    requires Uniform(p, w.Body()) && SplitCounts(p, r, w).Ok?
    ensures perInput == PerInput(p) && SplitOf(p, r, []).Ok?
    ensures SplitCounts(p, r, w).value.1 * perInput + ComputeMass(p, SplitOf(p, r, []).value.Body())
      <= MAXIMUM_STANDARD_TRANSACTION_MASS
  {
    hide ComputeMass, SplitOf, PerInput;
    var n := |w.Body().inputs|;
    UniformComputeMass(p, w.Body());
    UniformComputeMass(p, WithoutInputs(w));
    perInput := PerInput(p);
    assert ComputeMass(p, w.Body()) - ComputeMass(p, WithoutInputs(w)) == n * perInput by {
      assert 0 * perInput == 0;
    }
    CeilDivExact(n, perInput);
    var overhead := ComputeMass(p, SplitOf(p, r, []).value.Body());
    FloorTimes(MAXIMUM_STANDARD_TRANSACTION_MASS - overhead, perInput);
  }

  /* ----- every split ----- */

  /** A compounding transaction: it moves coins to the change address, pays the relay floor and
      fits the standard limit. */
  ghost predicate GoodSplit(p: Params, r: Request, s: Transfer) {
    && Aligned(s) && WellFormed(s) && Uniform(p, s.Body())
    && |s.Body().outputs| == 1 && s.addressByOutputIndex == [r.change]
    && s.Body().payload == []
    && CheckFeeRate(p, s).Pass?
    && ComputeMass(p, s.Body()) <= MAXIMUM_STANDARD_TRANSACTION_MASS
  }

  function WorthOf(us: seq<Utxo>): nat {
    SumOf(Amount, us)
  }

  lemma WorthOfOne(u: Utxo)
    ensures WorthOf([u]) == Amount(u)
  {
    assert SumOf(Amount, [u]) == Amount(u) + SumOf(Amount, [u][1..]);
    assert [u][1..] == [];
  }

  function LeftForMerge(r: Request, ss: seq<Transfer>): nat {
    SumOf(Amount, Map(MergeCoin(r), ss))
  }

  lemma OneSplit(c: Context, w: Transfer, k: nat, j: nat)
    requires Aligned(w) && Uniform(c.p, w.Body()) && c.p.Valid()
    requires SplitCounts(c.p, c.r, w).Ok? && SplitCounts(c.p, c.r, w).value.1 == k
    requires k > 0 && j * k < |w.Body().inputs|
    requires SplitOf(c.p, c.r, SliceNo(w, k, j)).Ok?
    requires CheckFeeRate(c.p, SplitOf(c.p, c.r, SliceNo(w, k, j)).value).Pass?
    ensures
      var s := SplitOf(c.p, c.r, SliceNo(w, k, j)).value;
      && GoodSplit(c.p, c.r, s)
      && WorthOf(SliceNo(w, k, j)) == MergeCoin(c.r)(s).entry.amount + Fee(s)
      && Fee(s) >= 1
  {
    hide SplitCounts, SplitOf, ComputeMass, FeeMass, SliceNo;
    var coins := SliceNo(w, k, j);
    SliceExtends(w, k, j);
    SliceBounds(w, k, j);
    assert (j + 1) * k == j * k + k;
    SplitShape(c.p, c.r, coins);
    SplitWithinLimit(c.p, c.r, w, coins);
    InputsWeigh(c.p, SplitOf(c.p, c.r, coins).value);
  }

  lemma InputsWeigh(p: Params, t: Transfer)
    requires p.Valid() && Uniform(p, t.Body()) && t.Body().inputs != []
    ensures FeeMass(p, t.Body()) >= ComputeMass(p, t.Body()) >= 1
  {
    UniformComputeMass(p, t.Body());
    var n := |t.Body().inputs|;
    assert n * PerInput(p) >= 1 by {
      TimesMonotone(1, n, PerInput(p));
    }
  }

  lemma AddToMerge(r: Request, ss: seq<Transfer>, s: Transfer)
    ensures LeftForMerge(r, ss + [s]) == LeftForMerge(r, ss) + MergeCoin(r)(s).entry.amount
    ensures TotalFees(ss + [s]) == TotalFees(ss) + Fee(s)
  {
    assert Map(MergeCoin(r), ss + [s]) == Map(MergeCoin(r), ss) + [MergeCoin(r)(s)];
    SumOfSnoc(Amount, Map(MergeCoin(r), ss), MergeCoin(r)(s));
    TotalFeesAppend(ss, [s]);
    assert [s][1..] == [];
  }

  ghost predicate GoodSplits(c: Context, w: Transfer, k: nat, i: nat, ss: seq<Transfer>) {
    && (forall s :: s in ss ==> GoodSplit(c.p, c.r, s))
    && Aligned(w) && Reach(w, k, i) <= |w.Body().inputs|
    && WorthOf(CoinsOf(w)[..Reach(w, k, i)]) == LeftForMerge(c.r, ss) + TotalFees(ss)
    && TotalFees(ss) >= i
  }

  lemma NothingSplitYet(c: Context, w: Transfer, k: nat)
    requires Aligned(w)
    ensures GoodSplits(c, w, k, 0, [])
  {
    assert Reach(w, k, 0) == 0;
  }

  lemma {:induction false} SplitsAreGood(c: Context, w: Transfer, k: nat, i: nat)
    requires Aligned(w) && Uniform(c.p, w.Body()) && c.p.Valid()
    requires SplitCounts(c.p, c.r, w).Ok? && SplitCounts(c.p, c.r, w).value.1 == k
    requires k > 0 && StartsInside(w, k, i) && Splits(c.p, c.r, w, k, i).Ok?
    ensures GoodSplits(c, w, k, i, Splits(c.p, c.r, w, k, i).value)
  {
    hide SplitCounts, SplitOf, CheckFeeRate, Splits, GoodSplit, SliceNo, GoodSplits, StartsInside, Uniform, WorthOf,
      MergeCoin, Fee;
    SplitsAre(c.p, c.r, w, k, i);
    var ss := Splits(c.p, c.r, w, k, i).value;
    if i == 0 {
      NothingSplitYet(c, w, k);
    } else {
      var before, s := ss[..i - 1], ss[i - 1];
      EarlierStartsInside(w, k, i);
      SplitsAreGood(c, w, k, i - 1);
      OneSplit(c, w, k, i - 1);
      OneMoreGoodSplit(c, w, k, i - 1, before, s);
      assert ss == before + [s];
    }
  }

  lemma OneMoreGoodSplit(c: Context, w: Transfer, k: nat, j: nat, before: seq<Transfer>, s: Transfer)
    requires Aligned(w) && GoodSplits(c, w, k, j, before) && GoodSplit(c.p, c.r, s)
    requires WorthOf(SliceNo(w, k, j)) == MergeCoin(c.r)(s).entry.amount + Fee(s) && Fee(s) >= 1
    ensures GoodSplits(c, w, k, j + 1, before + [s])
  {
    hide GoodSplit, LeftForMerge, SliceNo, Fee, MergeCoin, Aligned;
    SliceBounds(w, k, j);
    SliceExtends(w, k, j);
    SumOfAppend(Amount, CoinsOf(w)[..Reach(w, k, j)], SliceNo(w, k, j));
    AddToMerge(c.r, before, s);
  }

  lemma CoinsAreEntries(w: Transfer)
    requires Aligned(w)
    ensures WorthOf(CoinsOf(w)) == TotalIn(w)
  {
    forall i | 0 <= i < |CoinsOf(w)| ensures Amount(CoinsOf(w)[i]) == EntryAmount(w.Entries()[i]) {
      assert CoinsOf(w)[i] == CoinAt(w, i);
    }
    SumOfEqual(Amount, CoinsOf(w), EntryAmount, w.Entries());
  }

  /** One level conserves value: the inputs are worth what the splits leave plus their fees. */
  lemma LevelConserves(c: Context, score: nat, w: Transfer, step: Step, k: nat)
    requires Aligned(w) && Uniform(c.p, w.Body()) && c.p.Valid()
    requires step.Heavy? && IsHeavyStep(c, score, w, step.splits, step.merged, k)
    ensures forall s :: s in step.splits ==> GoodSplit(c.p, c.r, s)
    ensures TotalIn(w) == LeftForMerge(c.r, step.splits) + TotalFees(step.splits)
    ensures TotalIn(step.merged.tx) + TotalFees(step.splits) == TotalIn(w) + WorthOf(step.merged.extras)
    ensures TotalFees(step.splits) >= |step.splits| >= 1
    ensures Aligned(step.merged.tx) && Uniform(c.p, step.merged.tx.Body())
  {
    hide SplitCounts, Splits, CheckFeeRate, Merge, GoodSplit, MergeAmounts;
    SplitsAreGood(c, w, k, |step.splits|);
    assert Reach(w, k, |step.splits|) == |w.Body().inputs|;
    assert CoinsOf(w)[..|w.Body().inputs|] == CoinsOf(w);
    CoinsAreEntries(w);
    var _, _ := MergeShape(c, score, step.splits, w);
  }

  /* ----- the whole batch ----- */

  /** All but the last transaction are compounding ones; the last one carries the payload, pays at
      least the relay floor and is light enough to stand. */
  ghost predicate GoodBatch(c: Context, w: Transfer, batch: seq<Transfer>) {
    && batch != []
    && (forall i :: 0 <= i < |batch| - 1 ==> GoodSplit(c.p, c.r, batch[i]))
    && var last := batch[|batch| - 1];
    && Aligned(last) && Uniform(c.p, last.Body()) && last.Body().inputs != []
    && CheckFeeRate(c.p, last).Pass?
    && ComputeMass(c.p, last.Body()) < MAXIMUM_STANDARD_TRANSACTION_MASS
    && last.Body().payload == w.Body().payload
    && PaysAsAsked(c.r, last)
  }

  /** The recipient first, for the amount asked (or whatever a send-all leaves), then the change. */
  ghost predicate PaysAsAsked(r: Request, t: Transfer) {
    var outputs, payees := t.Body().outputs, t.addressByOutputIndex;
    && 1 <= |outputs| <= 2 && |payees| == |outputs|
    && payees[0] == r.to && outputs[0].script == PayToAddressScript(r.to)
    && (!r.isSendAll ==> outputs[0].value == r.amount)
    && (|outputs| == 2 ==> !r.isSendAll && payees[1] == r.change)
  }

  lemma MergePaysAsAsked(c: Context, score: nat, splits: seq<Transfer>, w: Transfer)
    requires w.Body().inputs != [] && Merge(c, score, splits, w).Ok? && splits != []
    ensures PaysAsAsked(c.r, Merge(c, score, splits, w).value.tx)
    ensures Merge(c, score, splits, w).value.tx.Body().inputs != []
    ensures Merge(c, score, splits, w).value.tx.Body().payload == w.Body().payload
  {
    hide Merge, Generated, MergeFee, MergePayments, PaysAsAsked, IsMergeOf, MoreUtxos, Uniform, SumOf;
    var available, sent := MergeShape(c, score, splits, w);
    var m := Merge(c, score, splits, w).value;
    var coins := Map(MergeCoin(c.r), splits) + m.extras;
    GeneratedShape(c.p, MergePayments(c.r, available, sent), coins, w.Body().payload);
    PaymentsPayAsAsked(c.r, m.tx, available, sent);
  }

  lemma PaymentsPayAsAsked(r: Request, t: Transfer, available: nat, sent: nat)
    requires t.Body().outputs == Map(OutputFor, MergePayments(r, available, sent))
    requires t.addressByOutputIndex == Map(PayeeOf, MergePayments(r, available, sent))
    requires sent == if r.isSendAll then available else r.amount
    ensures PaysAsAsked(r, t)
  {
    var payments := MergePayments(r, available, sent);
    assert payments[0] == Payment(r.to, sent);
    assert |payments| == 2 ==> payments[1].address == r.change;
  }

  /** Every successful batch is good and conserves value: the original inputs and whatever was
      added are worth the last transaction's outputs plus all the fees. */
  lemma {:induction false} BatchIsGood(fuel: nat, c: Context, scores: nat -> nat, level: nat, w: Transfer)
    requires Aligned(w) && Uniform(c.p, w.Body()) && c.p.Valid() && PaysAsAsked(c.r, w) && w.Body().inputs != []
    requires Compound(fuel, c, scores, level, w).Ok?
    ensures
      var batch := Compound(fuel, c, scores, level, w).value;
      && GoodBatch(c, w, batch)
      && Balanced(w, AllExtras(fuel, c, scores, level, w), batch)
    decreases fuel
  {
    hide Compound, AllExtras, StepOf, Aligned, Uniform, CheckFeeRate, ComputeMass, PaysAsAsked, GoodSplit, TotalIn,
      IsMergeOf, MergeAmounts, Merge, Balanced, TotalFees, WorthOf, SplitCounts, Splits;
    var step := StepResult(fuel, c, scores, level, w);
    if step.Light? {
      LightBatch(fuel, c, scores, level, w);
      LightStep(c, scores(level), w);
      LightIsGood(c, w);
    } else {
      var k := HeavyBatch(fuel, c, scores, level, w);
      LevelConserves(c, scores(level), w, step, k);
      MergePaysAsAsked(c, scores(level), step.splits, w);
      BatchIsGood(fuel - 1, c, scores, level + 1, step.merged.tx);
      HeavyIsGood(c, w, step, Compound(fuel - 1, c, scores, level + 1, step.merged.tx).value,
                  AllExtras(fuel - 1, c, scores, level + 1, step.merged.tx));
    }
  }

  ghost predicate Balanced(w: Transfer, extras: seq<Utxo>, batch: seq<Transfer>)
    requires batch != []
  {
    TotalIn(w) + WorthOf(extras) == TotalOut(batch[|batch| - 1]) + TotalFees(batch)
  }

  lemma LightIsGood(c: Context, w: Transfer)
    requires Aligned(w) && Uniform(c.p, w.Body()) && PaysAsAsked(c.r, w) && w.Body().inputs != []
    requires CheckFeeRate(c.p, w).Pass? && ComputeMass(c.p, w.Body()) < MAXIMUM_STANDARD_TRANSACTION_MASS
    ensures GoodBatch(c, w, [w]) && Balanced(w, [], [w])
  {
    hide CheckFeeRate, ComputeMass, PaysAsAsked, Uniform, Aligned;
    var batch := [w];
    assert batch[1..] == [] && batch[|batch| - 1] == w;
    assert TotalFees(batch) == Fee(w) + TotalFees([]) == Fee(w);
    assert WorthOf([]) == 0;
  }

  lemma HeavyIsGood(c: Context, w: Transfer, step: Step, rest: seq<Transfer>, below: seq<Utxo>)
    requires step.Heavy? && forall s :: s in step.splits ==> GoodSplit(c.p, c.r, s)
    requires TotalIn(step.merged.tx) + TotalFees(step.splits) == TotalIn(w) + WorthOf(step.merged.extras)
    requires step.merged.tx.Body().payload == w.Body().payload
    requires GoodBatch(c, step.merged.tx, rest) && Balanced(step.merged.tx, below, rest)
    ensures GoodBatch(c, w, step.splits + rest) && Balanced(w, step.merged.extras + below, step.splits + rest)
  {
    hide CheckFeeRate, ComputeMass, PaysAsAsked, Uniform, Aligned, GoodSplit;
    TotalFeesAppend(step.splits, rest);
    SumOfAppend(Amount, step.merged.extras, below);
    assert (step.splits + rest)[|step.splits + rest| - 1] == rest[|rest| - 1];
  }

  lemma LightStep(c: Context, score: nat, w: Transfer)
    requires Aligned(w) && StepOf(c, score, w) == Ok(Light)
    ensures CheckFeeRate(c.p, w).Pass? && ComputeMass(c.p, w.Body()) < MAXIMUM_STANDARD_TRANSACTION_MASS
  {
    hide CheckFeeRate, ComputeMass, SplitCounts, Splits, Merge;
  }
}