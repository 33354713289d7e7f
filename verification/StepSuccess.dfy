/** Which estimates, splits, merges and levels of compounding succeed, said in amounts and counts. */
module StepSuccess {
  import opened Arithmetic
  import opened Wrappers
  import opened Sequences
  import opened Model
  import opened Mass
  import opened Generate
  import opened Selection
  import opened Compounding
  import opened CompoundingFacts
  import opened BatchTheorems
  import opened FeeTheorems
  import opened FeeSufficiency
  import opened FewSpare
  import opened Ledger

  /* ----- estimates ----- */

  /** What an estimate charges for `n` inputs, `outs` of the longest outputs and `len` bytes of payload. */
  function EstimateOf(p: Params, r: Request, n: nat, outs: nat, len: nat): U64 {
    FeeAt(NormalizedMax(p, WorstMasses(p, n, outs, len)), r.rate, r.maxFee)
  }

  /** The mock has a second output exactly when the coins are worth more than the recipient gets. */
  lemma EstimatesIff(p: Params, r: Request, us: seq<Utxo>, value: nat, payload: seq<Byte>)
    ensures EstimateFee(p, us, r.rate, r.maxFee, value, payload).Ok? <==> Derivable(us)
    ensures Derivable(us) ==>
      EstimateFee(p, us, r.rate, r.maxFee, value, payload)
        == Ok(EstimateOf(p, r, |us|, if WorthOf(us) > value then 2 else 1, |payload|))
  {
    hide Generated, FeeMass, WorstMasses, NormalizedMax, FeeAt, Derivable, SumOf;
    BuildsIff(p, MockPayments(us, value), us, payload);
    if Derivable(us) {
      EstimateIsWorst(p, us, value, payload);
    }
  }

  /** What the selector charges for each coin: the estimate for the first one alone, which has change
      unless everything is sent or the coin does not exceed the amount. */
  lemma PerCoinFeeIs(p: Params, r: Request, first: Utxo)
    ensures PerUtxoFee(p, r, first).Ok? <==> first.address.index < 0x8000_0000
    ensures PerUtxoFee(p, r, first).Ok? ==>
      PerUtxoFee(p, r, first).value
        == EstimateOf(p, r, 1, if !r.isSendAll && Amount(first) > r.amount then 2 else 1, |r.payload|)
  {
    hide EstimateFee, EstimateOf;
    WorthOfOne(first);
    assert Derivable([first]) <==> first.address.index < 0x8000_0000 by {
      assert first in [first] && forall u :: u in [first] ==> u == first;
    }
    EstimatesIff(p, r, [first], if r.isSendAll then first.entry.amount else r.amount, r.payload);
  }

  /* ----- splits ----- */

  /** What splitting `n` inputs off costs. */
  function SplitCost(p: Params, r: Request, n: nat): U64 {
    EstimateOf(p, r, n, 1, 0)
  }

  /** A split succeeds exactly when its inputs' paths exist and they are worth its fee; it leaves the
      rest to the change address, as a coin of no block yet that the merge may spend. */
  lemma SplitsOffIff(p: Params, r: Request, coins: seq<Utxo>)
    requires coins != []
    ensures SplitOf(p, r, coins).Ok? <==> Derivable(coins) && SplitCost(p, r, |coins|) <= WorthOf(coins)
    ensures SplitOf(p, r, coins).Ok? ==>
      var s := SplitOf(p, r, coins).value;
      && Fee(s) == SplitCost(p, r, |coins|)
      && |s.Body().outputs| == 1
      && var left := WorthOf(coins) - SplitCost(p, r, |coins|);
      && s.Body().outputs[0] == Output(left, PayToAddressScript(r.change), None)
      && MergeCoin(r)(s).outpoint == Outpoint(IdOf(s.Body()), 0) && MergeCoin(r)(s).address == r.changeWallet
      && MergeCoin(r)(s).entry
           == WalletUtxoEntry(left, PayToAddressScript(r.change), 0xFFFF_FFFF_FFFF_FFFF, false, false)
  {
    hide Generated, EstimateFee, EstimateOf, Derivable, SumOf, IsBuilt, PayToAddressScript;
    var total := WorthOf(coins);
    EstimatesIff(p, r, coins, total, []);
    if Derivable(coins) && SplitCost(p, r, |coins|) <= total {
      var payments := [Payment(r.change, total - SplitCost(p, r, |coins|))];
      BuildsIff(p, payments, coins, []);
      GeneratedShape(p, payments, coins, []);
      BuiltTotals(p, SplitOf(p, r, coins).value, payments, coins, []);
      assert Map(OutputFor, payments)[0] == OutputFor(payments[0]);
    }
  }

  /** What a split of `n` inputs weighs. */
  function SplitWeight(p: Params, change: Address, n: nat): nat {
    p.blankMass + p.outputMass + p.scriptByteMass * |PayToAddressScript(change).bytes| + n * PerInput(p)
  }

  /** The inputs can be split exactly when one of them fits a split; each split then gets as many as
      fit, and there are as many splits as that takes. */
  lemma SplitCountsIff(p: Params, r: Request, w: Transfer)
    requires p.Valid() && Uniform(p, w.Body()) && w.Body().inputs != []
    ensures SplitCounts(p, r, w).Ok? <==> SplitWeight(p, r.change, 1) <= 100_000
    ensures SplitCounts(p, r, w).Ok? ==>
      var (count, k) := SplitCounts(p, r, w).value;
      && k == SplitSize(p, r.change) >= 1
      && SplitWeight(p, r.change, k) <= 100_000 < SplitWeight(p, r.change, k + 1)
      && count == CeilDiv(|w.Body().inputs|, k)
  {
    hide ComputeMass, SplitOf, PerInput, PayToAddressScript, CeilDiv, SplitCounts;
    var per, overhead := PerInput(p), SplitWeight(p, r.change, 0);
    CountsAre(p, r, w);
    InputsWeighSomething(p);
    assert 0 * per == 0 && 1 * per == per;
    if overhead <= 100_000 {
      FitsIff(100_000 - overhead, per);
    }
  }

  lemma CountsAre(p: Params, r: Request, w: Transfer)
    requires p.Valid() && Uniform(p, w.Body()) && w.Body().inputs != []
    ensures
      var k := SplitSize(p, r.change);
      && (SplitCounts(p, r, w).Ok? <==> k > 0)
      && (k > 0 ==> SplitCounts(p, r, w) == Ok((CeilDiv(|w.Body().inputs|, k), k)))
  {
    hide ComputeMass, SplitOf, PerInput, PayToAddressScript, CeilDiv, SplitWeight, Uniform, WithoutInputs;
    InputsWeighSomething(p);
    EachInputWeighs(p, w);
    EmptySplit(p, r);
    WeightOfNone(p, r.change);
  }

  lemma EachInputWeighs(p: Params, w: Transfer)
    requires Uniform(p, w.Body()) && w.Body().inputs != []
    ensures
      var massOfInputs := ComputeMass(p, w.Body()) - ComputeMass(p, WithoutInputs(w));
      massOfInputs >= 0 && CeilDiv(massOfInputs, |w.Body().inputs|) == PerInput(p)
  {
    hide ComputeMass, PerInput, CeilDiv;
    UniformComputeMass(p, w.Body());
    UniformComputeMass(p, WithoutInputs(w));
    assert 0 * PerInput(p) == 0;
    CeilDivExact(|w.Body().inputs|, PerInput(p));
  }

  lemma WeightOfNone(p: Params, change: Address)
    ensures SplitWeight(p, change, 0)
      == p.blankMass + p.outputMass + p.scriptByteMass * |PayToAddressScript(change).bytes|
  {
  }

  /** `room / per` is the most that fits. */
  lemma FitsIff(room: nat, per: nat)
    requires per > 0
    ensures room / per >= 1 <==> per <= room
    ensures (room / per) * per <= room < (room / per + 1) * per
  {
    DivMod(room, per);
    Distribute(room / per, per);
    if room / per >= 1 {
      TimesMonotone(1, room / per, per);
    }
  }

  lemma EmptySplit(p: Params, r: Request)
    ensures SplitOf(p, r, []).Ok?
    ensures ComputeMass(p, SplitOf(p, r, []).value.Body()) == SplitWeight(p, r.change, 0)
  {
    hide Assemble, ComputeMass, PerInput, PayToAddressScript;
    PayChangeMass(p, r, []);
  }

  /** Every one of the first `i` slices is worth its fee, and its paths exist. */
  ghost predicate Affordable(p: Params, r: Request, w: Transfer, k: nat, i: nat)
    requires Aligned(w)
  {
    forall j :: 0 <= j < i ==>
      Derivable(SliceNo(w, k, j)) && SplitCost(p, r, |SliceNo(w, k, j)|) <= WorthOf(SliceNo(w, k, j))
  }

  /** What the first `i` splits of `n` inputs, `k` to a split, cost. */
  function SplitCosts(p: Params, r: Request, n: nat, k: nat, i: nat): nat {
    if i == 0 then 0
    else SplitCosts(p, r, n, k, i - 1) + SplitCost(p, r, Min(i * k, n) - Min((i - 1) * k, n))
  }

  lemma {:induction false} SplitsIff(c: Context, w: Transfer, k: nat, i: nat)
    requires Sane(c.p, c.r) && Aligned(w) && Uncapped(c, w) && k > 0 && StartsInside(w, k, i)
    ensures Splits(c.p, c.r, w, k, i).Ok? <==> Affordable(c.p, c.r, w, k, i)
    ensures Splits(c.p, c.r, w, k, i).Ok? ==>
      TotalFees(Splits(c.p, c.r, w, k, i).value) == SplitCosts(c.p, c.r, |w.Body().inputs|, k, i)
  {
    hide SplitOf, CheckFeeRate, SliceNo, Slice, StartsInside, Uncapped, Sane, SplitCost, Derivable, WorthOf, Fee;
    if i > 0 {
      EarlierStartsInside(w, k, i);
      SplitsIff(c, w, k, i - 1);
      OneSplitIff(c, w, k, i - 1);
      var before := Splits(c.p, c.r, w, k, i - 1);
      if before.Ok? && SplitOf(c.p, c.r, SliceNo(w, k, i - 1)).Ok? {
        AddToMerge(c.r, before.value, SplitOf(c.p, c.r, SliceNo(w, k, i - 1)).value);
      }
    }
  }

  lemma OneSplitIff(c: Context, w: Transfer, k: nat, j: nat)
    requires Sane(c.p, c.r) && Aligned(w) && Uncapped(c, w) && k > 0 && j * k < |w.Body().inputs|
    ensures
      var coins := SliceNo(w, k, j);
      var split := SplitOf(c.p, c.r, coins);
      && coins == Slice(w, j * k, j * k + k)
      && |coins| == Min((j + 1) * k, |w.Body().inputs|) - Min(j * k, |w.Body().inputs|)
      && (split.Ok? <==> Derivable(coins) && SplitCost(c.p, c.r, |coins|) <= WorthOf(coins))
      && (split.Ok? ==>
            && CheckFeeRate(c.p, split.value).Pass?
            && Fee(split.value) == SplitCost(c.p, c.r, |coins|))
  {
    hide SplitOf, CheckFeeRate, SliceNo, SplitCost, Derivable, WorthOf, Fee, Sane, Uncapped;
    SliceExtends(w, k, j);
    SliceBounds(w, k, j);
    SliceIs(w, k, j);
    SplitsOffIff(c.p, c.r, SliceNo(w, k, j));
    if SplitOf(c.p, c.r, SliceNo(w, k, j)).Ok? {
      SliceSplitPasses(c, w, k, j);
    }
  }

  /* ----- merges ----- */

  /** The first `n` coins, none of which is worth less than its fee, bring what is required. */
  ghost predicate Brings(cs: seq<Utxo>, fee: nat, required: nat, n: nat) {
    && 1 <= n <= |cs|
    && (forall i :: 0 <= i < n ==> Amount(cs[i]) >= fee)
    && SumOf(Amount, cs[..n]) >= required + n * fee
  }

  /** And no fewer do. */
  ghost predicate FirstBrings(cs: seq<Utxo>, fee: nat, required: nat, n: nat) {
    Brings(cs, fee, required, n) && forall m :: 1 <= m < n ==> !Brings(cs, fee, required, m)
  }

  lemma {:induction false} EnoughIff(cs: seq<Utxo>, fee: nat, required: nat, i: nat, added: nat)
    requires i <= |cs| && SumOf(Amount, cs[..i]) == added + i * fee
    requires forall j :: 0 <= j < i ==> Amount(cs[j]) >= fee
    requires forall m :: 1 <= m <= i ==> !Brings(cs, fee, required, m)
    ensures Enough(cs, fee, required, i, added).Ok? <==> exists n :: Brings(cs, fee, required, n)
    ensures Enough(cs, fee, required, i, added).Ok? ==>
      FirstBrings(cs, fee, required, Enough(cs, fee, required, i, added).value)
    decreases |cs| - i
  {
    if i < |cs| && Amount(cs[i]) >= fee {
      SumOfPrefix(Amount, cs, i);
      Distribute(i, fee);
      if added + Amount(cs[i]) - fee >= required {
        assert Brings(cs, fee, required, i + 1);
      } else {
        assert !Brings(cs, fee, required, i + 1);
        EnoughIff(cs, fee, required, i + 1, added + Amount(cs[i]) - fee);
      }
    }
  }

  /** The coins a merge may add, in index order. */
  function SpareCoinsAt(c: Context, score: nat): seq<Utxo> {
    Filter(Spare(c, score), c.index)
  }

  /** What a merge of `m` splits that left `left` charges itself. */
  function MergeCost(c: Context, m: nat, left: nat, len: nat): U64 {
    EstimateOf(c.p, c.r, m, if left > c.r.amount then 2 else 1, len)
  }

  /** A send-all needs nothing more than its fee. A fixed amount must be covered by what the splits
      left, or else, when the coins were not chosen by the caller, by spare coins. */
  ghost predicate MergePays(c: Context, score: nat, w: Transfer, left: nat, fee: nat)
    requires w.Body().inputs != []
  {
    && fee <= left
    && (c.r.isSendAll
        || left >= c.r.amount + fee
        || (c.r.preselected == [] && SpareCovers(c, score, w, c.r.amount + fee - left)))
  }

  /** Some first few of the spare coins bring what is missing, and their paths exist. */
  ghost predicate SpareCovers(c: Context, score: nat, w: Transfer, shortage: nat)
    requires w.Body().inputs != []
  {
    exists n :: BringsShortage(c, score, w, shortage, n)
  }

  ghost predicate BringsShortage(c: Context, score: nat, w: Transfer, shortage: nat, n: nat)
    requires w.Body().inputs != []
  {
    var spare := SpareCoinsAt(c, score);
    FirstBrings(spare, FeePerExtra(c, w), shortage, n) && Derivable(spare[..n])
  }

  /** Additional coins are found exactly when some first few of the spare ones bring what is missing,
      and then they are the least such few. */
  lemma MoreUtxosIff(c: Context, score: nat, w: Transfer, required: nat)
    requires w.Body().inputs != []
    ensures MoreUtxos(c, score, w, required).Ok? <==>
      exists n :: FirstBrings(SpareCoinsAt(c, score), FeePerExtra(c, w), required, n)
    ensures MoreUtxos(c, score, w, required).Ok? ==>
      var n := |MoreUtxos(c, score, w, required).value|;
      && FirstBrings(SpareCoinsAt(c, score), FeePerExtra(c, w), required, n)
      && MoreUtxos(c, score, w, required).value == SpareCoinsAt(c, score)[..n]
  {
    hide FeePerExtra, Filter, Spare, FirstBrings, Brings;
    var cs, fee := SpareCoinsAt(c, score), FeePerExtra(c, w);
    NoneBringsYet(cs, fee, required);
    EnoughIff(cs, fee, required, 0, 0);
    if n :| FirstBrings(cs, fee, required, n) {
      FirstIsSome(cs, fee, required, n);
    }
  }

  lemma NoneBringsYet(cs: seq<Utxo>, fee: nat, required: nat)
    ensures SumOf(Amount, cs[..0]) == 0 + 0 * fee
  {
  }

  lemma FirstIsSome(cs: seq<Utxo>, fee: nat, required: nat, n: nat)
    requires FirstBrings(cs, fee, required, n)
    ensures Brings(cs, fee, required, n)
  {
  }

  lemma FirstIsUnique(cs: seq<Utxo>, fee: nat, required: nat, n: nat, m: nat)
    requires FirstBrings(cs, fee, required, n) && FirstBrings(cs, fee, required, m)
    ensures n == m
  {
  }

  lemma MergeFeeIff(c: Context, splits: seq<Transfer>, w: Transfer)
    requires splits != []
    ensures MergeFee(c, splits, w).Ok? <==> c.r.changeWallet.index < 0x8000_0000
    ensures MergeFee(c, splits, w).Ok? ==>
      MergeFee(c, splits, w).value == MergeCost(c, |splits|, LeftForMerge(c.r, splits), |w.Body().payload|)
    ensures Derivable(Map(MergeCoin(c.r), splits)) <==> c.r.changeWallet.index < 0x8000_0000
  {
    hide EstimateFee, EstimateOf;
    var coins := Map(MergeCoin(c.r), splits);
    assert coins[0] in coins && coins[0].address == c.r.changeWallet;
    forall u | u in coins ensures u.address == c.r.changeWallet {
      var i :| 0 <= i < |coins| && coins[i] == u;
    }
    EstimatesIff(c.p, c.r, coins, c.r.amount, w.Body().payload);
  }

  /** A merge succeeds exactly when the original has one output or two, the change path exists, and
      what the splits left can pay, alone or with spare coins. */
  lemma MergesIff(c: Context, score: nat, splits: seq<Transfer>, w: Transfer)
    requires w.Body().inputs != [] && splits != []
    ensures
      var left := LeftForMerge(c.r, splits);
      Merge(c, score, splits, w).Ok? <==>
        && 1 <= |w.Body().outputs| <= 2 && c.r.changeWallet.index < 0x8000_0000
        && MergePays(c, score, w, left, MergeCost(c, |splits|, left, |w.Body().payload|))
  {
    hide Generated, MergeFee, MoreUtxos, FeePerExtra, MergeCost, MergePayments, Derivable, Filter, MergeCoin,
      FirstBrings, SpareCoinsAt, SpareCovers, SumOf;
    MergeFeeIff(c, splits, w);
    var coins, left := Map(MergeCoin(c.r), splits), LeftForMerge(c.r, splits);
    var fee := MergeCost(c, |splits|, left, |w.Body().payload|);
    if MergeFee(c, splits, w).Ok? && fee <= left {
      var available := left - fee;
      var sent := if c.r.isSendAll then available else c.r.amount;
      if available >= sent {
        assert coins + [] == coins;
        BuildsIff(c.p, MergePayments(c.r, available, sent), coins, w.Body().payload);
      } else if c.r.preselected == [] {
        SpareCoversIff(c, score, w, sent - available);
        var more := MoreUtxos(c, score, w, sent - available);
        if more.Ok? {
          BuildsIff(c.p, MergePayments(c.r, available, sent), coins + more.value, w.Body().payload);
          DerivableBoth(coins, more.value);
        }
      }
    }
  }

  lemma DerivableBoth(us: seq<Utxo>, vs: seq<Utxo>)
    ensures Derivable(us + vs) <==> Derivable(us) && Derivable(vs)
  {
    assert forall u :: u in us + vs <==> u in us || u in vs;
  }

  lemma SpareCoversIff(c: Context, score: nat, w: Transfer, shortage: nat)
    requires w.Body().inputs != []
    ensures
      var more := MoreUtxos(c, score, w, shortage);
      SpareCovers(c, score, w, shortage) <==> more.Ok? && Derivable(more.value)
  {
    hide FeePerExtra, Derivable, SpareCoinsAt, Brings, MoreUtxos;
    MoreUtxosIff(c, score, w, shortage);
    var more, fee := MoreUtxos(c, score, w, shortage), FeePerExtra(c, w);
    if SpareCovers(c, score, w, shortage) {
      var n :| BringsShortage(c, score, w, shortage, n);
      assert FirstBrings(SpareCoinsAt(c, score), fee, shortage, n);
      FirstIsUnique(SpareCoinsAt(c, score), fee, shortage, n, |more.value|);
    } else if more.Ok? {
      assert !BringsShortage(c, score, w, shortage, |more.value|);
    }
  }

  /* ----- one level ----- */

  /** What all splits of a transaction leave. */
  function LeftBySplits(c: Context, w: Transfer): int
    requires c.p.Valid() && SplitSize(c.p, c.r.change) > 0
  {
    var n, k := |w.Body().inputs|, SplitSize(c.p, c.r.change);
    TotalIn(w) - SplitCosts(c.p, c.r, n, k, CeilDiv(n, k))
  }

  /** A transaction can be compounded by one level: one input fits a split, every slice pays for its
      split, and what they leave pays for the merge. */
  ghost predicate LevelPays(c: Context, score: nat, w: Transfer)
    requires c.p.Valid() && Aligned(w) && w.Body().inputs != []
  {
    var n, k := |w.Body().inputs|, SplitSize(c.p, c.r.change);
    && k > 0 && 1 <= |w.Body().outputs| <= 2 && c.r.changeWallet.index < 0x8000_0000
    && Affordable(c.p, c.r, w, k, CeilDiv(n, k))
    && LeftBySplits(c, w) >= 0
    && MergePays(c, score, w, LeftBySplits(c, w), MergeCost(c, CeilDiv(n, k), LeftBySplits(c, w), |w.Body().payload|))
  }

  lemma AllSplitsIff(c: Context, w: Transfer, k: nat)
    requires Sane(c.p, c.r) && Aligned(w) && Uniform(c.p, w.Body()) && Uncapped(c, w) && w.Body().inputs != []
    requires k == SplitSize(c.p, c.r.change) > 0
    ensures
      var n := |w.Body().inputs|;
      var splits := Splits(c.p, c.r, w, k, CeilDiv(n, k));
      && (splits.Ok? <==> Affordable(c.p, c.r, w, k, CeilDiv(n, k)))
      && (splits.Ok? ==>
            && |splits.value| == CeilDiv(n, k) > 0
            && LeftForMerge(c.r, splits.value) == LeftBySplits(c, w) >= 0)
  {
    hide Splits, Affordable, CeilDiv, SplitSize, SplitCounts, GoodSplit, Uniform, Uncapped, LeftForMerge, SplitCosts,
      TotalFees, WorthOf, CoinsOf, Sane;
    var n, m := |w.Body().inputs|, CeilDiv(|w.Body().inputs|, k);
    LastSplitStartsInside(n, k);
    SaneIsValid(c.p, c.r);
    SplitsIff(c, w, k, m);
    if Splits(c.p, c.r, w, k, m).Ok? {
      CountsAre(c.p, c.r, w);
      SplitsAreGood(c, w, k, m);
      SplitsAre(c.p, c.r, w, k, m);
      assert Reach(w, k, m) == n;
      assert CoinsOf(w)[..n] == CoinsOf(w);
      CoinsAreEntries(w);
    }
  }

  lemma SaneIsValid(p: Params, r: Request)
    requires Sane(p, r)
    ensures p.Valid() && RealPayees(r) && r.rate >= 1.0
  {
  }

  /** A level succeeds exactly when the transaction pays its floor and, if it is too heavy, can be
      compounded; it then leaves to the merge what the inputs are worth less what the splits cost. */
  lemma StepsIff(c: Context, score: nat, w: Transfer)
    requires Sane(c.p, c.r) && Aligned(w) && Uniform(c.p, w.Body()) && Uncapped(c, w) && w.Body().inputs != []
    ensures
      var step, heavy := StepOf(c, score, w), ComputeMass(c.p, w.Body()) >= 100_000;
      && (step.Ok? <==> CheckFeeRate(c.p, w).Pass? && (heavy ==> LevelPays(c, score, w)))
      && (step.Ok? ==> step.value.Heavy? == heavy)
      && (step.Ok? && heavy ==>
            && |step.value.splits| == CeilDiv(|w.Body().inputs|, SplitSize(c.p, c.r.change))
            && LeftForMerge(c.r, step.value.splits) == LeftBySplits(c, w))
  {
    hide CheckFeeRate, ComputeMass, SplitCounts, Splits, Merge, SplitSize, Affordable, CeilDiv, LeftBySplits, MergePays,
      MergeCost, LeftForMerge, Uniform, Uncapped, Sane, Aligned;
    SaneIsValid(c.p, c.r);
    CountsAre(c.p, c.r, w);
    var k := SplitSize(c.p, c.r.change);
    if k > 0 {
      AllSplitsIff(c, w, k);
      var splits := Splits(c.p, c.r, w, k, CeilDiv(|w.Body().inputs|, k));
      if splits.Ok? {
        MergesIff(c, score, splits.value, w);
      }
    }
  }
}
