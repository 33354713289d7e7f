/** Requests for a fixed amount from a wallet with few coins to spare: conditions on the parameters,
    the request and the wallet alone under which compounding ends, adds coins at one level at most,
    and pays enough. */
module FewSpare {
  import opened Arithmetic
  import opened Wrappers
  import opened Sequences
  import opened Model
  import opened Mass
  import opened Generate
  import opened Selection
  import opened Compounding
  import opened CompoundingFacts
  import opened CompoundingTheorems
  import opened BatchTheorems
  import opened ExtrasTheorems
  import opened FeeTheorems
  import opened FeeSufficiency
  import opened Ledger
  import opened SplitRun
  import opened Termination

  /* ----- what is known before the call ----- */

  /** How many inputs a split may hold: the parameters and the change script say so. */
  function SplitSize(p: Params, change: Address): nat
    requires p.Valid()
  {
    var overhead := p.blankMass + p.outputMass + p.scriptByteMass * |PayToAddressScript(change).bytes|;
    if overhead > MAXIMUM_STANDARD_TRANSACTION_MASS then 0
    else (MAXIMUM_STANDARD_TRANSACTION_MASS - overhead) / PerInput(p)
  }

  /** A coin that a merge might add at some score. */
  function EverSpare(c: Context): Utxo -> bool {
    (u: Utxo) => u !in c.selected && (c.r.from == [] || u.address in c.r.from) && !u.entry.isUnconfirmed
  }

  function SpareCount(c: Context): nat {
    |Filter(EverSpare(c), c.index)|
  }

  /** What `n` inputs weigh at most, with two of the longest outputs and `len` bytes of payload. */
  function Weight(p: Params, n: nat, len: nat): nat {
    WorstMasses(p, n, 2, len).compute
  }

  /** The fewest inputs that can be too heavy. */
  function LeastHeavy(p: Params, len: nat): nat
    requires p.Valid()
  {
    var base := Weight(p, 0, len);
    if base >= MAXIMUM_STANDARD_TRANSACTION_MASS then 0
    else CeilDiv(MAXIMUM_STANDARD_TRANSACTION_MASS - base, PerInput(p))
  }

  lemma HeavyIffMany(p: Params, n: nat, len: nat)
    requires p.Valid()
    ensures Weight(p, n, len) >= MAXIMUM_STANDARD_TRANSACTION_MASS <==> n >= LeastHeavy(p, len)
  {
    hide PerInput, WorstOutputMass, CeilDiv, PerInputBytes, WorstOutputSize;
    InputsWeighSomething(p);
    var base := Weight(p, 0, len);
    assert Weight(p, n, len) == base + n * PerInput(p);
    if base < MAXIMUM_STANDARD_TRANSACTION_MASS {
      ReachesIff(MAXIMUM_STANDARD_TRANSACTION_MASS - base, PerInput(p), n);
    }
  }

  lemma InputsWeighSomething(p: Params)
    requires p.Valid()
    ensures PerInput(p) > 0
  {
  }

  lemma ReachesIff(room: nat, k: nat, n: nat)
    requires k > 0 && room > 0
    ensures n * k >= room <==> n >= CeilDiv(room, k)
  {
    LastSplitStartsInside(room, k);
    var s := CeilDiv(room, k);
    if n >= s {
      TimesMonotone(s, n, k);
    } else {
      TimesMonotone(n, s - 1, k);
    }
  }

  /** Even the smallest transaction that is too heavy shrinks, whatever its merge adds. */
  predicate Dwindles(c: Context, len: nat)
    requires c.p.Valid()
  {
    var n, k := LeastHeavy(c.p, len), SplitSize(c.p, c.r.change);
    k > 0 ==> CeilDiv(n, k) + SpareCount(c) < n
  }

  /** The merge of `n` inputs is light, whatever it adds. */
  predicate MergeIsLight(c: Context, n: nat, len: nat)
    requires c.p.Valid()
  {
    var k := SplitSize(c.p, c.r.change);
    k > 0 ==> Weight(c.p, CeilDiv(n, k) + SpareCount(c), len) < MAXIMUM_STANDARD_TRANSACTION_MASS
  }

  ghost predicate RealPayees(r: Request) {
    r.to.Valid() && r.change.Valid()
  }

  /** A transaction as the wallet builds them: real payees, at most two of them. */
  ghost predicate WithinWorst(p: Params, w: Transfer) {
    && Aligned(w) && Uniform(p, w.Body())
    && ComputeMass(p, w.Body()) <= Weight(p, |w.Body().inputs|, |w.Body().payload|)
  }

  /* ----- what the recursion makes of it ----- */

  lemma SplitSizeIs(p: Params, r: Request, w: Transfer)
    requires p.Valid() && Uniform(p, w.Body()) && SplitCounts(p, r, w).Ok?
    ensures SplitCounts(p, r, w).value.1 == SplitSize(p, r.change) > 0
  {
    hide ComputeMass, SplitOf, PerInput, PayToAddressScript;
    var n := |w.Body().inputs|;
    UniformComputeMass(p, w.Body());
    UniformComputeMass(p, WithoutInputs(w));
    assert ComputeMass(p, w.Body()) - ComputeMass(p, WithoutInputs(w)) == n * PerInput(p) by {
      assert 0 * PerInput(p) == 0;
    }
    CeilDivExact(n, PerInput(p));
    PayChangeMass(p, r, []);
    assert 0 * PerInput(p) == 0;
  }

  lemma {:induction false} FilterWider<A(!new)>(narrow: A -> bool, wide: A -> bool, s: seq<A>)
    requires forall a :: narrow(a) ==> wide(a)
    ensures |Filter(narrow, s)| <= |Filter(wide, s)|
  {
    if s != [] {
      FilterWider(narrow, wide, s[1..]);
    }
  }

  lemma FewExtras(c: Context, score: nat, w: Transfer, required: nat)
    requires w.Body().inputs != [] && MoreUtxos(c, score, w, required).Ok?
    ensures |MoreUtxos(c, score, w, required).value| <= SpareCount(c)
  {
    hide Filter, Enough, FeePerExtra;
    forall u | Spare(c, score)(u) ensures EverSpare(c)(u) {
      assert Eligible(c.p, c.r, score)(u);
    }
    FilterWider(Spare(c, score), EverSpare(c), c.index);
  }

  lemma BuiltWithinWorst(p: Params, w: Transfer, ys: seq<Payment>, us: seq<Utxo>, payload: seq<Byte>)
    requires IsBuilt(p, w, ys, us, payload) && ValidPayees(ys) && |ys| <= 2
    ensures WithinWorst(p, w)
  {
    hide ComputeMass, TransientMass, WorstMasses, Uniform, SumOf;
    BuiltMasses(p, w, ys, us, payload);
    WorstGrows(p, |us|, |ys|, |payload|, |us|, 2, |payload|);
  }

  /** A merge is within the worst case too, and has at most the spare coins beside the splits. */
  lemma MergeWithin(c: Context, score: nat, w: Transfer, step: Step, k: nat)
    requires c.p.Valid() && RealPayees(c.r) && Uniform(c.p, w.Body())
    requires step.Heavy? && IsHeavyStep(c, score, w, step.splits, step.merged, k)
    ensures
      var merge := step.merged.tx;
      && WithinWorst(c.p, merge) && merge.Body().payload == w.Body().payload
      && k == SplitSize(c.p, c.r.change) > 0
      && |merge.Body().inputs| <= CeilDiv(|w.Body().inputs|, k) + SpareCount(c)
  {
    hide CheckFeeRate, Uniform, Merge, Splits, SplitCounts, CeilDiv, SplitSize, SpareCount, WithinWorst, MoreUtxos,
      Generated, SumOf;
    SplitSizeIs(c.p, c.r, w);
    var m := step.merged;
    var available, sent := MergeShape(c, score, step.splits, w);
    if available < sent {
      FewExtras(c, score, w, sent - available);
    }
    var ys, us := MergePayments(c.r, available, sent), Map(MergeCoin(c.r), step.splits) + m.extras;
    GeneratedShape(c.p, ys, us, w.Body().payload);
    BuiltWithinWorst(c.p, m.tx, ys, us, w.Body().payload);
  }

  /* ----- when compounding ends ----- */

  lemma OneMoreCeil(n: nat, k: nat)
    requires k > 0
    ensures CeilDiv(n + 1, k) <= CeilDiv(n, k) + 1
  {
    LastSplitStartsInside(n + 1, k);
    var more, s := CeilDiv(n + 1, k), CeilDiv(n, k);
    if n > 0 {
      LastSplitStartsInside(n, k);
    }
    assert (s + 1) * k == s * k + k;
    if more > s + 1 {
      TimesMonotone(s + 1, more - 1, k);
    }
  }

  /** What splitting takes off does not shrink as the inputs grow. */
  lemma {:induction false} SavingGrows(least: nat, n: nat, k: nat)
    requires k > 0 && least <= n
    ensures CeilDiv(n, k) + least <= CeilDiv(least, k) + n
  {
    hide CeilDiv;
    if least < n {
      SavingGrows(least, n - 1, k);
      OneMoreCeil(n - 1, k);
    }
  }

  lemma LevelDwindles(c: Context, score: nat, w: Transfer, step: Step, k: nat)
    requires c.p.Valid() && RealPayees(c.r) && WithinWorst(c.p, w) && Dwindles(c, |w.Body().payload|)
    requires step.Heavy? && IsHeavyStep(c, score, w, step.splits, step.merged, k)
    requires ComputeMass(c.p, w.Body()) >= MAXIMUM_STANDARD_TRANSACTION_MASS
    ensures
      var merge := step.merged.tx;
      && WithinWorst(c.p, merge) && merge.Body().payload == w.Body().payload
      && |merge.Body().inputs| < |w.Body().inputs|
  {
    hide CheckFeeRate, Uniform, Merge, Splits, SplitCounts, CeilDiv, SplitSize, SpareCount, ComputeMass, LeastHeavy,
      Weight;
    var n := |w.Body().inputs|;
    MergeWithin(c, score, w, step, k);
    HeavyIffMany(c.p, n, |w.Body().payload|);
    SavingGrows(LeastHeavy(c.p, |w.Body().payload|), n, k);
  }

  lemma HeavyStepIsHeavy(c: Context, score: nat, w: Transfer)
    requires Aligned(w) && StepOf(c, score, w).Ok? && StepOf(c, score, w).value.Heavy?
    ensures ComputeMass(c.p, w.Body()) >= MAXIMUM_STANDARD_TRANSACTION_MASS
  {
    hide CheckFeeRate, ComputeMass, SplitCounts, Splits, Merge;
  }

  lemma StepDwindles(c: Context, score: nat, w: Transfer)
    requires c.p.Valid() && RealPayees(c.r) && WithinWorst(c.p, w) && Dwindles(c, |w.Body().payload|)
    requires StepOf(c, score, w).Ok? && StepOf(c, score, w).value.Heavy?
    ensures
      var merge := StepOf(c, score, w).value.merged.tx;
      && WithinWorst(c.p, merge) && merge.Body().payload == w.Body().payload
      && |merge.Body().inputs| < |w.Body().inputs|
  {
    HeavyStepIsHeavy(c, score, w);
    var k := HeavyStep(c, score, w);
    hide StepOf, WithinWorst, Dwindles, IsHeavyStep, ComputeMass;
    LevelDwindles(c, score, w, StepOf(c, score, w).value, k);
  }

  lemma {:induction false} DownStaysWithin(n: nat, c: Context, scores: nat -> nat, level: nat, w: Transfer)
    requires c.p.Valid() && RealPayees(c.r) && WithinWorst(c.p, w) && Dwindles(c, |w.Body().payload|)
    ensures
      var t := Down(n, c, scores, level, w);
      t.Some? ==> WithinWorst(c.p, t.value) && t.value.Body().payload == w.Body().payload
    decreases n
  {
    hide *;
    WithinIsAligned(c.p, w);
    DownUnfold(n, c, scores, level, w);
    var step := StepOf(c, scores(level), w);
    if n > 0 && step.Ok? && step.value.Heavy? {
      StepDwindles(c, scores(level), w);
      DownStaysWithin(n - 1, c, scores, level + 1, step.value.merged.tx);
    }
  }

  lemma DownUnfold(n: nat, c: Context, scores: nat -> nat, level: nat, w: Transfer)
    requires Aligned(w)
    ensures n == 0 ==> Down(n, c, scores, level, w) == Some(w)
    ensures
      var step := StepOf(c, scores(level), w);
      var below := if step.Ok? && step.value.Heavy? && n > 0
                   then Down(n - 1, c, scores, level + 1, step.value.merged.tx) else None;
      n > 0 ==> Down(n, c, scores, level, w) == below
  {
    hide StepOf;
  }

  lemma WithinIsAligned(p: Params, w: Transfer)
    requires WithinWorst(p, w)
    ensures Aligned(w) && Uniform(p, w.Body())
  {
  }

  lemma {:induction false} DownOneMore(n: nat, c: Context, scores: nat -> nat, level: nat, w: Transfer)
    requires Aligned(w) && Down(n, c, scores, level, w).Some? && Down(n + 1, c, scores, level, w).Some?
    ensures
      var step := StepOf(c, scores(level + n), Down(n, c, scores, level, w).value);
      step.Ok? && step.value.Heavy? && Down(n + 1, c, scores, level, w) == Some(step.value.merged.tx)
    decreases n
  {
    hide StepOf;
    var step := StepOf(c, scores(level), w);
    if n > 0 && step.Ok? && step.value.Heavy? {
      DownOneMore(n - 1, c, scores, level + 1, step.value.merged.tx);
    } else if step.Ok? && step.value.Heavy? {
      assert Down(0, c, scores, level + 1, step.value.merged.tx) == Some(step.value.merged.tx);
    }
  }

  /** Compounding ends, coins added or not, when even the smallest transaction that is too heavy
      shrinks by more inputs than there are spare coins. */
  lemma EndsWhenFewSpare(c: Context, scores: nat -> nat, level: nat, w: Transfer)
    requires c.p.Valid() && RealPayees(c.r) && WithinWorst(c.p, w) && Dwindles(c, |w.Body().payload|)
    ensures Halts(|w.Body().inputs|, c, scores, level, w)
  {
    WithinIsAligned(c.p, w);
    hide StepOf, WithinWorst, Dwindles, Down, Halts;
    forall n: nat ensures InputsFallAt(n, c, scores, level, w) {
      if Down(n, c, scores, level, w).Some? && Down(n + 1, c, scores, level, w).Some? {
        DownStaysWithin(n, c, scores, level, w);
        DownOneMore(n, c, scores, level, w);
        StepDwindles(c, scores(level + n), Down(n, c, scores, level, w).value);
      }
    }
    EndsWhenInputsFall(|w.Body().inputs|, c, scores, level, w);
  }

  /** The original transaction is such a transaction. */
  lemma OriginalWithinWorst(p: Params, r: Request, s: Selected)
    requires RealPayees(r) && Original(p, r, s).Ok?
    ensures WithinWorst(p, Original(p, r, s).value)
    ensures |Original(p, r, s).value.Body().inputs| == |s.utxos|
    ensures Original(p, r, s).value.Body().payload == r.payload
  {
    hide Generated, WithinWorst;
    GeneratedShape(p, OriginalPayments(r, s), s.utxos, r.payload);
    BuiltWithinWorst(p, Original(p, r, s).value, OriginalPayments(r, s), s.utxos, r.payload);
  }

  /* ----- when only one level adds coins ----- */

  lemma MergeEnds(c: Context, score: nat, w: Transfer, step: Step, k: nat)
    requires c.p.Valid() && RealPayees(c.r) && Uniform(c.p, w.Body())
    requires MergeIsLight(c, |w.Body().inputs|, |w.Body().payload|)
    requires step.Heavy? && IsHeavyStep(c, score, w, step.splits, step.merged, k)
    ensures Aligned(step.merged.tx) && ComputeMass(c.p, step.merged.tx.Body()) < MAXIMUM_STANDARD_TRANSACTION_MASS
  {
    hide Splits, SplitCounts, Merge, CheckFeeRate, CeilDiv, SplitSize, SpareCount, ComputeMass, Weight, LeastHeavy,
      Uniform;
    MergeWithin(c, score, w, step, k);
    var len := |w.Body().payload|;
    HeavyIffMany(c.p, CeilDiv(|w.Body().inputs|, k) + SpareCount(c), len);
    HeavyIffMany(c.p, |step.merged.tx.Body().inputs|, len);
  }

  /** Whatever the level below a merge that must be light does, it is not heavy. */
  lemma NotHeavyBelow(c: Context, scores: nat -> nat, level: nat, w: Transfer)
    requires c.p.Valid() && RealPayees(c.r) && WithinWorst(c.p, w)
    requires MergeIsLight(c, |w.Body().inputs|, |w.Body().payload|)
    requires StepOf(c, scores(level), w).Ok? && StepOf(c, scores(level), w).value.Heavy?
    ensures
      var step := StepOf(c, scores(level + 1), StepOf(c, scores(level), w).value.merged.tx);
      step.Err? || step.value.Light?
  {
    var k := HeavyStep(c, scores(level), w);
    hide StepOf, IsHeavyStep, MergeIsLight, ComputeMass;
    var merge := StepOf(c, scores(level), w).value.merged.tx;
    MergeEnds(c, scores(level), w, StepOf(c, scores(level), w).value, k);
    if StepOf(c, scores(level + 1), merge).Ok? && StepOf(c, scores(level + 1), merge).value.Heavy? {
      HeavyStepIsHeavy(c, scores(level + 1), merge);
    }
  }

  /** When the first merge must be light, compounding ends after one level, and what that level adds
      it adds once. */
  lemma OneLevelIsEnough(fuel: nat, c: Context, scores: nat -> nat, level: nat, w: Transfer)
    requires c.p.Valid() && RealPayees(c.r) && WithinWorst(c.p, w)
    requires MergeIsLight(c, |w.Body().inputs|, |w.Body().payload|)
    ensures Halts(1, c, scores, level, w)
    ensures Compound(fuel, c, scores, level, w).Ok? && NoDup(Outpoints(c.index)) ==>
      NoDup(Outpoints(AllExtras(fuel, c, scores, level, w)))
  {
    WithinIsAligned(c.p, w);
    hide StepOf, WithinWorst, MergeIsLight, NoDup, Outpoints, IsHeavyStep, AllExtras, Compound;
    var step := StepOf(c, scores(level), w);
    if step.Ok? && step.value.Heavy? {
      var merge := step.value.merged.tx;
      NotHeavyBelow(c, scores, level, w);
      assert Halts(0, c, scores, level + 1, merge);
      if Compound(fuel, c, scores, level, w).Ok? && NoDup(Outpoints(c.index)) {
        var k := HeavyBatch(fuel, c, scores, level, w);
        LevelExtras(c, scores(level), w, step.value, k);
        var below := StepResult(fuel - 1, c, scores, level + 1, merge);
        LightBatch(fuel - 1, c, scores, level + 1, merge);
        assert step.value.merged.extras + [] == step.value.merged.extras;
      }
    } else if Compound(fuel, c, scores, level, w).Ok? {
      var light := StepResult(fuel, c, scores, level, w);
      LightBatch(fuel, c, scores, level, w);
      NothingRepeats();
    }
  }

  /** The batch then runs over the wallet's coins. */
  lemma RunsWhenFewSpare(fuel: nat, c: Context, scores: nat -> nat, w: Transfer, m: Coins, owner: Owner)
    requires c.p.Valid() && RealPayees(c.r) && WithinWorst(c.p, w)
    requires MergeIsLight(c, |w.Body().inputs|, |w.Body().payload|)
    requires Spendable(m, w) && WellFormed(w) && Unspent(m.Keys) && owner(c.r.change).Some?
    requires AtTheTop(c, w, m) && Aligned(w) && Compound(fuel, c, scores, 0, w).Ok?
    ensures BatchOutcome(m, w, AllExtras(fuel, c, scores, 0, w), Compound(fuel, c, scores, 0, w).value, owner)
  {
    hide Compound, AllExtras, Spendable, WellFormed, AtTheTop, NoDup, Outpoints, Unspent, WithinWorst, MergeIsLight,
      ExtrasHeld, BatchOutcome, Halts;
    TopIndexIsDistinct(c, w, m);
    OneLevelIsEnough(fuel, c, scores, 0, w);
    ExtrasAreHeld(fuel, c, scores, 0, w, m);
    BatchRuns(fuel, c, scores, 0, w, m, owner);
  }

  /* ----- when every fee suffices ----- */

  /** The guess at one more input's mass is the same for every input the wallet makes. */
  function GuessOf(p: Params): nat {
    MassPerInputGuess(p, NewInput(p, Outpoint(NodeTx(0), 0)))
  }

  lemma GuessIsUniform(p: Params, w: Transfer)
    requires Uniform(p, w.Body()) && w.Body().inputs != []
    ensures MassPerInputGuess(p, w.Body().inputs[0]) == GuessOf(p)
  {
    assert w.Body().inputs[0] in w.Body().inputs;
  }

  /** 64 grams, the signature's mass, and what the input commits to: signature operations in version 0,
      later 100 grams for each unit of compute budget. The fee for an added coin is that at the rate. */
  lemma GuessIs(p: Params)
    ensures GuessOf(p) == 64 + p.signatureMassPerInput
      + if p.version == 0 then p.minimumSignatures * p.massPerSigOp else 100 * p.computeBudgetPerInput
  {
  }

  lemma DwindlingMergeKeepsGoing(c: Context, score: nat, w: Transfer, step: Step, k: nat)
    requires Sane(c.p, c.r) && Uniform(c.p, w.Body()) && Uncapped(c, w) && SafeGuess(c.p, GuessOf(c.p))
    requires step.Heavy? && IsHeavyStep(c, score, w, step.splits, step.merged, k)
    requires |step.merged.tx.Body().inputs| <= |w.Body().inputs|
    requires step.merged.tx.Body().payload == w.Body().payload
    ensures Uncapped(c, step.merged.tx) && CheckFeeRate(c.p, step.merged.tx).Pass?
  {
    hide CheckFeeRate, Uniform, Merge, Splits, SplitCounts, EstimateMass, CeilDiv, NormalizedMax, WorstMasses,
      SafeGuess, MassPerInputGuess, GuessOf;
    var merge, n, len := step.merged.tx, |w.Body().inputs|, |w.Body().payload|;
    FewerSplitsThanInputs(n, k);
    if MergeMockMass(c, step.splits, w).Ok? {
      EstimateWithinBound(c.p, MergeCoins(c, step.splits), c.r.amount, w.Body().payload, n, len);
    }
    if step.merged.extras == [] {
      MergePassesCheck(c, score, step.splits, w);
    } else {
      GuessIsUniform(c.p, w);
      MergeWithExtrasPassesCheck(c, score, step.splits, w);
    }
    WorstGrows(c.p, |merge.Body().inputs|, 2, len, n, 2, len);
    NormalizedMaxScales(c.p, WorstMasses(c.p, n, 2, len), WorstMasses(c.p, |merge.Body().inputs|, 2, len), 1);
  }

  /** A whole run that may add coins never fails for a fee that is too low, where the transactions
      dwindle and the guess at an input's mass is safe. */
  lemma {:induction false} NeverTooLowWhenFewSpare(fuel: nat, c: Context, scores: nat -> nat, level: nat, w: Transfer)
    requires Sane(c.p, c.r) && SafeGuess(c.p, GuessOf(c.p))
    requires WithinWorst(c.p, w) && Dwindles(c, |w.Body().payload|)
    requires Uncapped(c, w) && CheckFeeRate(c.p, w).Pass? && Aligned(w)
    ensures Compound(fuel, c, scores, level, w).Err? ==> !Compound(fuel, c, scores, level, w).error.FeeTooLow?
    decreases fuel
  {
    hide StepOf, CheckFeeRate, WithinWorst, Dwindles, Uncapped, SafeGuess, GuessOf, IsHeavyStep;
    WithinIsAligned(c.p, w);
    var step := StepOf(c, scores(level), w);
    StepNeverTooLow(c, scores(level), w);
    if step.Ok? && step.value.Heavy? && fuel > 0 {
      var merge := step.value.merged.tx;
      var k := HeavyStep(c, scores(level), w);
      StepDwindles(c, scores(level), w);
      DwindlingMergeKeepsGoing(c, scores(level), w, step.value, k);
      WithinIsAligned(c.p, merge);
      NeverTooLowWhenFewSpare(fuel - 1, c, scores, level + 1, merge);
    }
  }
}
