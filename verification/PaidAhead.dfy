/** Requests whose selection already pays for compounding: a condition on the
    values involved under which no merge adds a coin, however many coins the wallet has to spare. */
module PaidAhead {
  import opened Arithmetic
  import opened Sequences
  import opened Model
  import opened Mass
  import opened Generate
  import opened Selection
  import opened Compounding
  import opened CompoundingFacts
  import opened BatchTheorems
  import opened FeeTheorems
  import opened FeeSufficiency
  import opened FewSpare
  import opened Ledger
  import opened Termination

  /* ----- what compounding can cost ----- */

  /** The most one estimate for `n` coins and `len` bytes of payload charges. */
  function TopFee(p: Params, r: Request, n: nat, len: nat): U64 {
    FeeAt(EstimateBound(p, n, len), r.rate, r.maxFee)
  }

  /** A split holds two inputs at least, and one input alone is not too heavy. */
  predicate Compounds(p: Params, change: Address, len: nat)
    requires p.Valid()
  {
    SplitSize(p, change) != 1 && LeastHeavy(p, len) >= 2
  }

  function Times(m: nat, fee: nat): nat {
    m * fee
  }

  lemma CeilShrinks(n: nat, k: nat)
    requires n >= 2 && k >= 2
    ensures 0 < CeilDiv(n, k) < n
  {
    LastSplitStartsInside(n, k);
    TimesMonotone(2, k, CeilDiv(n, k) - 1);
  }

  /** The most that compounding `n` inputs can cost: at each level the splits, and in the end the
      merge. */
  function FeesToCome(p: Params, r: Request, n: nat, len: nat): nat
    requires p.Valid()
    decreases n
  {
    var k := SplitSize(p, r.change);
    if n < LeastHeavy(p, len) || n < 2 || k < 2 then 0
    else
      var m := CeilDiv(n, k);
      assert m < n by { CeilShrinks(n, k); }
      Times(m, TopFee(p, r, Min(n, k), 0)) + Max(TopFee(p, r, m, len), FeesToCome(p, r, m, len))
  }

  lemma FeeGrows(small: nat, big: nat, rate: real, maxFee: U64)
    requires small <= big && rate >= 0.0
    ensures FeeAt(small, rate, maxFee) <= FeeAt(big, rate, maxFee)
  {
    hide *;
    FeeAtIs(small, rate, maxFee);
    FeeAtIs(big, rate, maxFee);
    TimesReal(small as real, big as real, rate);
    CappedGrows(small as real * rate, big as real * rate, maxFee);
  }

  lemma CappedGrows(x: real, y: real, maxFee: U64)
    requires x <= y
    ensures Min(AsU64(x), maxFee) <= Min(AsU64(y), maxFee)
  {
    hide AsU64;
    AsU64Grows(x, y);
  }

  lemma FeeAtIs(mass: nat, rate: real, maxFee: U64)
    ensures FeeAt(mass, rate, maxFee) == Min(AsU64(mass as real * rate), maxFee)
  {
  }

  lemma AsU64Grows(x: real, y: real)
    requires x <= y
    ensures AsU64(x) <= AsU64(y)
  {
    hide Ceil;
    CeilBounds(y);
    CeilLeast(x, Ceil(y));
  }

  lemma EstimateAtMost(p: Params, r: Request, us: seq<Utxo>, v: nat, payload: seq<Byte>, n: nat, len: nat)
    requires p.Valid() && r.rate >= 0.0 && |us| <= n && |payload| <= len
    requires EstimateFee(p, us, r.rate, r.maxFee, v, payload).Ok?
    ensures EstimateFee(p, us, r.rate, r.maxFee, v, payload).value <= TopFee(p, r, n, len)
  {
    hide EstimateMass, EstimateBound, FeeAt;
    EstimateWithinBound(p, us, v, payload, n, len);
    FeeGrows(EstimateMass(p, us, v, payload).value, EstimateBound(p, n, len), r.rate, r.maxFee);
  }

  lemma SplitFeeAtMost(p: Params, r: Request, coins: seq<Utxo>, n: nat)
    requires p.Valid() && r.rate >= 0.0 && coins != [] && |coins| <= n && SplitOf(p, r, coins).Ok?
    ensures Fee(SplitOf(p, r, coins).value) <= TopFee(p, r, n, 0)
  {
    hide EstimateFee, Generated, TopFee, IsBuilt;
    var total := WorthOf(coins);
    var fee := EstimateFee(p, coins, r.rate, r.maxFee, total, []).value;
    var payments := [Payment(r.change, total - fee)];
    GeneratedShape(p, payments, coins, []);
    BuiltTotals(p, SplitOf(p, r, coins).value, payments, coins, []);
    EstimateAtMost(p, r, coins, total, [], n, 0);
  }

  lemma {:induction false} SplitsCostAtMost(p: Params, r: Request, w: Transfer, k: nat, i: nat)
    requires p.Valid() && r.rate >= 0.0 && Aligned(w) && k > 0 && StartsInside(w, k, i) && Splits(p, r, w, k, i).Ok?
    ensures TotalFees(Splits(p, r, w, k, i).value) <= i * TopFee(p, r, Min(|w.Body().inputs|, k), 0)
  {
    hide SplitOf, Splits, CheckFeeRate, SliceNo, TopFee, Fee, Aligned, StartsInside;
    SplitsAre(p, r, w, k, i);
    var ss, n := Splits(p, r, w, k, i).value, Min(|w.Body().inputs|, k);
    if i == 0 {
      NoSplitsNoFees(ss);
    } else {
      EarlierStartsInside(w, k, i);
      SplitsCostAtMost(p, r, w, k, i - 1);
      SliceExtends(w, k, i - 1);
      SliceIsShort(w, k, i - 1);
      SplitFeeAtMost(p, r, SliceNo(w, k, i - 1), n);
      LastFee(ss);
      assert (i - 1) * TopFee(p, r, n, 0) + TopFee(p, r, n, 0) == i * TopFee(p, r, n, 0);
    }
  }

  lemma NoSplitsNoFees(ss: seq<Transfer>)
    requires |ss| == 0
    ensures TotalFees(ss) == 0
  {
  }

  lemma LastFee(ss: seq<Transfer>)
    requires ss != []
    ensures TotalFees(ss) == TotalFees(ss[..|ss| - 1]) + Fee(ss[|ss| - 1])
  {
    var last := [ss[|ss| - 1]];
    assert ss == ss[..|ss| - 1] + last && last[1..] == [];
    TotalFeesAppend(ss[..|ss| - 1], last);
  }

  lemma SliceIsShort(w: Transfer, k: nat, j: nat)
    requires Aligned(w)
    ensures |SliceNo(w, k, j)| <= Min(|w.Body().inputs|, k)
  {
    SliceBounds(w, k, j);
  }

  /* ----- no level adds a coin ----- */

  /** What the recipient is owed whatever the fees: a send-all sends what is left. */
  function Owed(r: Request): nat {
    if r.isSendAll then 0 else r.amount
  }

  /** The inputs are worth what is owed and everything that compounding them can cost. */
  ghost predicate PaidFor(c: Context, w: Transfer)
    requires c.p.Valid()
  {
    && WithinWorst(c.p, w)
    && TotalIn(w) >= Owed(c.r) + FeesToCome(c.p, c.r, |w.Body().inputs|, |w.Body().payload|)
  }

  ghost predicate Solvent(c: Context, len: nat) {
    c.p.Valid() && RealPayees(c.r) && c.r.rate >= 0.0 && Compounds(c.p, c.r.change, len)
  }

  lemma LevelAddsNothing(c: Context, score: nat, w: Transfer, step: Step, k: nat)
    requires Solvent(c, |w.Body().payload|) && PaidFor(c, w)
    requires step.Heavy? && IsHeavyStep(c, score, w, step.splits, step.merged, k)
    requires ComputeMass(c.p, w.Body()) >= MAXIMUM_STANDARD_TRANSACTION_MASS
    ensures step.merged.extras == [] && step.merged.tx.Body().payload == w.Body().payload
    ensures PaidFor(c, step.merged.tx)
  {
    hide CheckFeeRate, Uniform, Merge, Splits, SplitCounts, CeilDiv, SplitSize, ComputeMass, LeastHeavy, Weight,
      TopFee, GoodSplit, Generated, SumOf, EstimateFee, RealPayees;
    var n, len := |w.Body().inputs|, |w.Body().payload|;
    var m := |step.splits|;
    MergeWithin(c, score, w, step, k);
    HeavyIffMany(c.p, n, len);
    LevelConserves(c, score, w, step, k);
    SplitsCostAtMost(c.p, c.r, w, k, m);
    var available, sent := MergeShape(c, score, step.splits, w);
    EstimateAtMost(c.p, c.r, Map(MergeCoin(c.r), step.splits), c.r.amount, w.Body().payload, m, len);
    FeesUnfold(c.p, c.r, n, len);
    assert |Spends(step.merged.tx.Body())| == m + |step.merged.extras|;
    NothingIsWorthless();
  }

  lemma FeesUnfold(p: Params, r: Request, n: nat, len: nat)
    requires p.Valid() && n >= LeastHeavy(p, len) && n >= 2 && SplitSize(p, r.change) >= 2
    ensures
      var m := CeilDiv(n, SplitSize(p, r.change));
      var splits := m * TopFee(p, r, Min(n, SplitSize(p, r.change)), 0);
      && FeesToCome(p, r, n, len) >= splits + TopFee(p, r, m, len)
      && FeesToCome(p, r, n, len) >= splits + FeesToCome(p, r, m, len)
  {
    hide TopFee, LeastHeavy, SplitSize;
    CeilShrinks(n, SplitSize(p, r.change));
  }

  lemma StepAddsNothing(c: Context, score: nat, w: Transfer)
    requires Solvent(c, |w.Body().payload|) && PaidFor(c, w)
    requires StepOf(c, score, w).Ok? && StepOf(c, score, w).value.Heavy?
    ensures
      var merged := StepOf(c, score, w).value.merged;
      merged.extras == [] && merged.tx.Body().payload == w.Body().payload && PaidFor(c, merged.tx)
  {
    HeavyStepIsHeavy(c, score, w);
    var k := HeavyStep(c, score, w);
    hide *;
    LevelAddsNothing(c, score, w, StepOf(c, score, w).value, k);
  }

  lemma PaidIsAligned(c: Context, w: Transfer)
    requires c.p.Valid() && PaidFor(c, w)
    ensures Aligned(w) && Uniform(c.p, w.Body())
  {
  }

  lemma SolventIsValid(c: Context, len: nat)
    requires Solvent(c, len)
    ensures c.p.Valid()
  {
  }

  lemma {:induction false} DownStaysPaid(n: nat, c: Context, scores: nat -> nat, level: nat, w: Transfer)
    requires Solvent(c, |w.Body().payload|) && PaidFor(c, w)
    ensures
      var t := Down(n, c, scores, level, w);
      t.Some? ==> PaidFor(c, t.value) && t.value.Body().payload == w.Body().payload
    decreases n
  {
    hide *;
    SolventIsValid(c, |w.Body().payload|);
    PaidIsAligned(c, w);
    DownUnfold(n, c, scores, level, w);
    var step := StepOf(c, scores(level), w);
    if n > 0 && step.Ok? && step.value.Heavy? {
      StepAddsNothing(c, scores(level), w);
      DownStaysPaid(n - 1, c, scores, level + 1, step.value.merged.tx);
    }
  }

  /** Compounding a transaction whose inputs pay for it ahead adds no coin at any level, and ends. */
  lemma AddsNothingWhenPaid(c: Context, scores: nat -> nat, level: nat, w: Transfer)
    requires Solvent(c, |w.Body().payload|) && PaidFor(c, w)
    ensures NoExtras(c, scores, level, w) && Halts(TotalIn(w), c, scores, level, w)
  {
    PaidIsAligned(c, w);
    hide StepOf, PaidFor, Solvent, Down, Halts, Uniform;
    SolventIsValid(c, |w.Body().payload|);
    forall n: nat ensures !AddsAt(n, c, scores, level, w) {
      var t := Down(n, c, scores, level, w);
      if t.Some? && StepOf(c, scores(level + n), t.value).Ok? && StepOf(c, scores(level + n), t.value).value.Heavy? {
        DownStaysPaid(n, c, scores, level, w);
        StepAddsNothing(c, scores(level + n), t.value);
      }
    }
    EndsWithoutExtras(TotalIn(w), c, scores, level, w);
  }

  /* ----- from the selection ----- */

  /** The change, and the fees that the original sets aside and the merges charge anew, cover what
      compounding can cost. */
  lemma ChangePaysAhead(c: Context, s: Selected)
    requires Solvent(c, |c.r.payload|) && Original(c.p, c.r, s).Ok?
    requires SumOf(Amount, s.utxos) >= Owed(c.r) + FeesToCome(c.p, c.r, |s.utxos|, |c.r.payload|)
    ensures PaidFor(c, Original(c.p, c.r, s).value)
    ensures Original(c.p, c.r, s).value.Body().payload == c.r.payload
  {
    hide Generated, WithinWorst, FeesToCome, Uniform, Compounds;
    OriginalWithinWorst(c.p, c.r, s);
    GeneratedShape(c.p, OriginalPayments(c.r, s), s.utxos, c.r.payload);
  }

  /** A bound that needs no recursion: twice as many of the dearest fees as there are inputs. */
  lemma {:induction false} FeesAtMostTwice(p: Params, r: Request, n: nat, len: nat, top: nat)
    requires p.Valid() && r.rate >= 0.0 && n >= 2 && TopFee(p, r, n, len) <= top
    ensures FeesToCome(p, r, n, len) <= (2 * n - 2) * top
    decreases n
  {
    hide TopFee, LeastHeavy, SplitSize, CeilDiv, Times;
    var k := SplitSize(p, r.change);
    if n >= LeastHeavy(p, len) && k >= 2 {
      var m := CeilDiv(n, k);
      CeilShrinks(n, k);
      HalfAtMost(n, k);
      TopFeeGrows(p, r, Min(n, k), 0, n, len);
      TopFeeGrows(p, r, m, len, n, len);
      if m >= 2 {
        FeesAtMostTwice(p, r, m, len, top);
      }
      LevelAtMost(n, m, TopFee(p, r, Min(n, k), 0), TopFee(p, r, m, len), FeesToCome(p, r, m, len), top);
    } else {
      TimesMonotone(0, 2 * n - 2, top);
    }
  }

  lemma LevelAtMost(n: nat, m: nat, split: nat, merge: nat, rest: nat, top: nat)
    requires n >= 2 && 1 <= m < n && 2 * m <= n + 1 && split <= top && merge <= top
    requires if m >= 2 then rest <= (2 * m - 2) * top else rest == 0
    ensures Times(m, split) + Max(merge, rest) <= (2 * n - 2) * top
  {
    hide Times;
    TimesAtMost(m, split, top);
    Distribute(m, top);
    TimesMonotone(m + 1, 2 * n - 2, top);
    if m >= 2 {
      TimesAdd(m, 2 * m - 2, top);
      TimesMonotone(3 * m - 2, 2 * n - 2, top);
    }
  }

  lemma TimesAtMost(m: nat, fee: nat, top: nat)
    requires fee <= top
    ensures Times(m, fee) <= m * top
  {
  }

  lemma TimesAdd(a: nat, b: nat, top: nat)
    ensures a * top + b * top == (a + b) * top
  {
  }

  lemma HalfAtMost(n: nat, k: nat)
    requires n >= 2 && k >= 2
    ensures 2 * CeilDiv(n, k) <= n + 1
  {
    LastSplitStartsInside(n, k);
    TimesMonotone(2, k, CeilDiv(n, k) - 1);
  }

  lemma BoundGrows(p: Params, k: nat, short: nat, n: nat, len: nat)
    requires p.Valid() && k <= n && short <= len
    ensures EstimateBound(p, k, short) <= EstimateBound(p, n, len)
  {
    hide NormalizedMax, WorstMasses;
    WorstGrows(p, k, 2, short, n, 2, len);
    NormalizedMaxScales(p, WorstMasses(p, n, 2, len), WorstMasses(p, k, 2, short), 1);
  }

  lemma TopFeeGrows(p: Params, r: Request, k: nat, short: nat, n: nat, len: nat)
    requires p.Valid() && r.rate >= 0.0 && k <= n && short <= len
    ensures TopFee(p, r, k, short) <= TopFee(p, r, n, len)
  {
    hide EstimateBound, FeeAt;
    BoundGrows(p, k, short, n, len);
    FeeGrows(EstimateBound(p, k, short), EstimateBound(p, n, len), r.rate, r.maxFee);
  }
}
