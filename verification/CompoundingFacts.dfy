/** What one level of compounding builds: the splits partition the inputs, the merge spends what
    they leave. */
module CompoundingFacts {
  import opened Arithmetic
  import opened Wrappers
  import opened Sequences
  import opened Model
  import opened Mass
  import opened Generate
  import opened Selection
  import opened Compounding
  import opened Ledger

  /* ----- splitting is an exact partition ----- */

  /** With `ceil(n / k)` ranges of `k`, every range starts inside the inputs (so none is empty and
      none starts past the end), the last one reaches the end, and each input is in exactly one. */
  lemma RangesPartition(n: nat, k: nat, x: nat)
    requires n > 0 && k > 0
    ensures var s := CeilDiv(n, k);
      && (forall i :: 0 <= i < s ==> i * k < n)
      && n <= s * k
      && (x < n ==> x / k < s && forall i :: 0 <= i < s ==> (i * k <= x < i * k + k <==> i == x / k))
  {
    hide CeilDiv;
    var s := CeilDiv(n, k);
    LastSplitStartsInside(n, k);
    forall i | 0 <= i < s ensures i * k < n {
      TimesMonotone(i, s - 1, k);
    }
    if x < n {
      RangeOf(x, k, s);
      forall i: nat | i < s ensures i * k <= x < i * k + k <==> i == x / k {
        RangeOf(x, k, i);
      }
    }
  }

  /** `x` is in range `x / k`, after all smaller ranges and before all larger ones. */
  lemma RangeOf(x: nat, k: nat, i: nat)
    requires k > 0
    ensures i * k <= x < i * k + k <==> i == x / k
    ensures x < i * k <==> x / k < i
  {
    var q := x / k;
    assert q * k <= x < q * k + k;
    if i < q {
      TimesMonotone(i + 1, q, k);
      assert (i + 1) * k == i * k + k;
    } else if i > q {
      TimesMonotone(q + 1, i, k);
      assert (q + 1) * k == q * k + k;
    }
  }

  /** The inputs split `j` takes. */
  function SliceNo(w: Transfer, k: nat, j: nat): seq<Utxo>
    requires Aligned(w)
  {
    Slice(w, j * k, j * k + k)
  }

  function Reach(w: Transfer, k: nat, j: nat): nat {
    Min(j * k, |w.Body().inputs|)
  }

  /** The first `i` slices all start inside the inputs. */
  ghost predicate StartsInside(w: Transfer, k: nat, i: nat) {
    i == 0 || (i - 1) * k < |w.Body().inputs|
  }

  lemma EarlierStartsInside(w: Transfer, k: nat, i: nat)
    requires i > 0 && StartsInside(w, k, i)
    ensures StartsInside(w, k, i - 1) && (i - 1) * k < |w.Body().inputs|
  {
    if i >= 2 {
      TimesMonotone(i - 2, i - 1, k);
    }
  }

  lemma SliceExtends(w: Transfer, k: nat, j: nat)
    requires Aligned(w)
    ensures CoinsOf(w)[..Reach(w, k, j + 1)] == CoinsOf(w)[..Reach(w, k, j)] + SliceNo(w, k, j)
    ensures k > 0 && j * k < |w.Body().inputs| ==> SliceNo(w, k, j) != []
  {
    assert (j + 1) * k == j * k + k;
  }

  lemma SliceBounds(w: Transfer, k: nat, j: nat)
    requires Aligned(w)
    ensures Reach(w, k, j) <= Reach(w, k, j + 1) <= |w.Body().inputs|
    ensures SliceNo(w, k, j) == CoinsOf(w)[Reach(w, k, j)..Reach(w, k, j + 1)]
  {
    assert (j + 1) * k == j * k + k;
  }

  /** Laid end to end, the splits' inputs are the original's, in order. */
  lemma {:induction false} SplitsAre(p: Params, r: Request, w: Transfer, k: nat, i: nat)
    requires Aligned(w) && Splits(p, r, w, k, i).Ok?
    ensures |Splits(p, r, w, k, i).value| == i
    ensures i > 0 ==>
      && Splits(p, r, w, k, i - 1) == Ok(Splits(p, r, w, k, i).value[..i - 1])
      && SplitOf(p, r, SliceNo(w, k, i - 1)) == Ok(Splits(p, r, w, k, i).value[i - 1])
      && CheckFeeRate(p, Splits(p, r, w, k, i).value[i - 1]).Pass?
  {
    hide SplitOf, CheckFeeRate;
    if i > 0 {
      SplitsAre(p, r, w, k, i - 1);
    }
  }

  /** The inputs of a built transaction read back as the coins it was built of, as if confirmed. */
  lemma CoinsOfBuilt(p: Params, payments: seq<Payment>, us: seq<Utxo>, payload: seq<Byte>)
    requires Generated(p, payments, us, payload).Ok?
    ensures
      var w := Generated(p, payments, us, payload).value;
      && Aligned(w) && |CoinsOf(w)| == |us|
      && forall i :: 0 <= i < |us| ==> CoinsOf(w)[i] == us[i].(entry := us[i].entry.(isUnconfirmed := false))
  {
    hide Dedup, PathsOf, NonContextualMasses, PayToAddressScript, InputCommit;
    var w := Generated(p, payments, us, payload).value;
    forall i | 0 <= i < |us| ensures CoinsOf(w)[i] == us[i].(entry := us[i].entry.(isUnconfirmed := false)) {
      assert CoinsOf(w)[i] == CoinAt(w, i);
    }
  }

  /* ----- one split ----- */

  ghost predicate IsSplitOf(p: Params, r: Request, s: Transfer, coins: seq<Utxo>) {
    && Aligned(s) && WellFormed(s) && Uniform(p, s.Body())
    && Spends(s.Body()) == Map(UtxoOutpoint, coins)
    && |s.Entries()| == |coins|
    && (forall i :: 0 <= i < |coins| ==> EntryAmount(s.Entries()[i]) == Amount(coins[i]))
    && |s.Body().outputs| == 1 && s.addressByOutputIndex == [r.change]
    && s.Body().payload == []
    && TotalIn(s) == SumOf(Amount, coins)
    && TotalOut(s) == s.Body().outputs[0].value
  }

  lemma SplitShape(p: Params, r: Request, coins: seq<Utxo>)
    requires coins != [] && SplitOf(p, r, coins).Ok?
    ensures IsSplitOf(p, r, SplitOf(p, r, coins).value, coins)
  {
    hide EstimateFee, Generated;
    var s := SplitOf(p, r, coins).value;
    var fee := EstimateFee(p, coins, r.rate, r.maxFee, SumOf(Amount, coins), []).value;
    var payments := [Payment(r.change, SumOf(Amount, coins) - fee)];
    GeneratedShape(p, payments, coins, []);
    PaymentsTotal(payments);
    assert s.addressByOutputIndex == [r.change];
    assert Spends(s.Body())[0] == coins[0].outpoint;
  }

  /* ----- one merge ----- */

  ghost predicate IsMergeOf(c: Context, m: Merged, splits: seq<Transfer>, w: Transfer) {
    var coins := Map(MergeCoin(c.r), splits) + m.extras;
    && Aligned(m.tx) && Uniform(c.p, m.tx.Body())
    && |m.tx.Body().outputs| == |m.tx.addressByOutputIndex|
    && Spends(m.tx.Body()) == Map(UtxoOutpoint, coins)
    && |m.tx.Entries()| == |coins|
    && (forall i :: 0 <= i < |coins| ==> EntryAmount(m.tx.Entries()[i]) == Amount(coins[i]))
    && m.tx.Body().payload == w.Body().payload
    && TotalIn(m.tx) == SumOf(Amount, Map(MergeCoin(c.r), splits)) + SumOf(Amount, m.extras)
  }

  /** The amounts a merge works with: what the splits left, less the fee it set aside. */
  ghost predicate MergeAmounts(c: Context, m: Merged, splits: seq<Transfer>, w: Transfer, available: nat, sent: nat) {
    var total := SumOf(Amount, Map(MergeCoin(c.r), splits));
    && MergeFee(c, splits, w).Ok?
    && MergeFee(c, splits, w).value + available == total
    && sent == (if c.r.isSendAll then available else c.r.amount)
    && (available >= sent ==> m.extras == [])
    && (available < sent ==> !c.r.isSendAll && c.r.preselected == [])
    && Generated(c.p, MergePayments(c.r, available, sent), Map(MergeCoin(c.r), splits) + m.extras, w.Body().payload)
         == Ok(m.tx)
  }

  lemma MergeShape(c: Context, score: nat, splits: seq<Transfer>, w: Transfer) returns (available: nat, sent: nat)
    requires w.Body().inputs != [] && Merge(c, score, splits, w).Ok?
    ensures
      var m := Merge(c, score, splits, w).value;
      && IsMergeOf(c, m, splits, w)
      && MergeAmounts(c, m, splits, w, available, sent)
      && (available < sent ==> MoreUtxos(c, score, w, sent - available) == Ok(m.extras))
      && 1 <= |w.Body().outputs| <= 2
  {
    hide EstimateFee, Generated, MoreUtxos, Merge, MergeFee, MergePayments, MergeCoin, MergeAmounts, SumOf;
    var m := Merge(c, score, splits, w).value;
    available, sent := MergeTook(c, score, splits, w);
    MergedIsMerge(c, m, splits, w, available, sent);
  }

  /** The amounts a successful merge went through. */
  lemma MergeTook(c: Context, score: nat, splits: seq<Transfer>, w: Transfer) returns (available: nat, sent: nat)
    requires w.Body().inputs != [] && Merge(c, score, splits, w).Ok?
    ensures
      var m := Merge(c, score, splits, w).value;
      && MergeAmounts(c, m, splits, w, available, sent)
      && (available < sent ==> MoreUtxos(c, score, w, sent - available) == Ok(m.extras))
      && 1 <= |w.Body().outputs| <= 2
  {
    hide Generated, MoreUtxos, MergeFee, MergePayments, MergeCoin, SumOf;
    available := SumOf(Amount, Map(MergeCoin(c.r), splits)) - MergeFee(c, splits, w).value;
    sent := if c.r.isSendAll then available else c.r.amount;
  }

  lemma MergedIsMerge(c: Context, m: Merged, splits: seq<Transfer>, w: Transfer, available: nat, sent: nat)
    requires MergeAmounts(c, m, splits, w, available, sent)
    ensures IsMergeOf(c, m, splits, w)
  {
    hide Generated, MergeFee, MergePayments, MergeCoin, SumOf, Uniform;
    var coins := Map(MergeCoin(c.r), splits);
    GeneratedShape(c.p, MergePayments(c.r, available, sent), coins + m.extras, w.Body().payload);
    SumOfAppend(Amount, coins, m.extras);
  }

  /* ----- the coins a merge adds ----- */

  /** Added coins are the first spare ones of the index: eligible, not selected before, distinct. */
  lemma ExtrasAreSpare(c: Context, score: nat, w: Transfer, required: nat)
    requires w.Body().inputs != [] && MoreUtxos(c, score, w, required).Ok?
    ensures
      var extras := MoreUtxos(c, score, w, required).value;
      && extras <= Filter(Spare(c, score), c.index)
      && IsSubsequence(extras, c.index)
      && (required > 0 ==> extras != [])
      && (forall u :: u in extras ==> u in c.index && u !in c.selected && Eligible(c.p, c.r, score)(u))
  {
    var spare := Filter(Spare(c, score), c.index);
    var extras := MoreUtxos(c, score, w, required).value;
    FilterIsSubsequence(Spare(c, score), c.index);
    PrefixIsSubsequence(spare, |extras|, c.index);
    assert forall u :: u in extras ==> u in spare;
  }

  /** Added coins cover what was missing, each counted for its value less one input's fee. */
  lemma {:induction false} ExtrasCover(cs: seq<Utxo>, fee: nat, required: nat, i: nat, added: nat)
    requires i <= |cs| && Enough(cs, fee, required, i, added).Ok?
    requires SumOf(Amount, cs[..i]) == added + i * fee
    ensures var n := Enough(cs, fee, required, i, added).value;
      SumOf(Amount, cs[..n]) >= required + n * fee
    decreases |cs| - i
  {
    SumOfPrefix(Amount, cs, i);
    assert i * fee + fee == (i + 1) * fee;
    if added + Amount(cs[i]) - fee < required {
      ExtrasCover(cs, fee, required, i + 1, added + Amount(cs[i]) - fee);
    }
  }

  /** Nor is one taken more than needed: without the last, the missing amount would not be covered. */
  lemma {:induction false} ExtrasAreLeast(cs: seq<Utxo>, fee: nat, required: nat, i: nat, added: nat)
    requires i <= |cs| && Enough(cs, fee, required, i, added).Ok?
    requires SumOf(Amount, cs[..i]) == added + i * fee && added < required
    ensures var n := Enough(cs, fee, required, i, added).value;
      n > 0 && SumOf(Amount, cs[..n - 1]) < required + (n - 1) * fee
    decreases |cs| - i
  {
    SumOfPrefix(Amount, cs, i);
    assert i * fee + fee == (i + 1) * fee;
    if added + Amount(cs[i]) - fee < required {
      ExtrasAreLeast(cs, fee, required, i + 1, added + Amount(cs[i]) - fee);
    }
  }

  /** A merge never creates money. What it leaves to the miner is exactly the fee it set aside
      when it adds no coin. When it adds some it makes no change, so that everything beyond the
      amount goes to the miner: the fee, one for each added coin, and whatever is left over. */
  lemma MergeFeeIsKept(c: Context, score: nat, splits: seq<Transfer>, w: Transfer)
    requires w.Body().inputs != [] && Merge(c, score, splits, w).Ok?
    ensures
      var m := Merge(c, score, splits, w).value;
      && MergeFee(c, splits, w).Ok?
      && var fee := MergeFee(c, splits, w).value;
      && (m.extras == [] ==> Fee(m.tx) == fee)
      && (m.extras != [] ==> Fee(m.tx) == LeftOver(c, splits, m.extras) && |m.tx.Body().outputs| == 1)
      && (m.extras != [] ==> Fee(m.tx) >= fee + |m.extras| * FeePerExtra(c, w))
      && (m.extras != [] ==> !c.r.isSendAll && c.r.preselected == [])
  {
    hide EstimateFee, MergeFee, Merge, FeePerExtra, MoreUtxos, Generated, Uniform, SumOf;
    var m := Merge(c, score, splits, w).value;
    var available, sent := MergeShape(c, score, splits, w);
    MergedPays(c, m, splits, w, available, sent);
    if available < sent {
      ExtrasPayTheirWay(c, score, w, sent - available);
    } else {
      NothingIsWorthless();
    }
  }

  /** What the splits left and the added coins are worth beyond the amount asked. */
  function LeftOver(c: Context, splits: seq<Transfer>, extras: seq<Utxo>): int {
    SumOf(Amount, Map(MergeCoin(c.r), splits)) + SumOf(Amount, extras) - c.r.amount
  }

  /** How much of that is surplus, beyond the fees: less than what the last added coin brought. */
  lemma SurplusIsBurned(c: Context, score: nat, splits: seq<Transfer>, w: Transfer)
    requires w.Body().inputs != [] && Merge(c, score, splits, w).Ok? && Merge(c, score, splits, w).value.extras != []
    ensures
      var m, per := Merge(c, score, splits, w).value, FeePerExtra(c, w);
      && MergeFee(c, splits, w).Ok?
      && var surplus := Fee(m.tx) - (MergeFee(c, splits, w).value + |m.extras| * per);
      0 <= surplus < Amount(m.extras[|m.extras| - 1]) - per
  {
    hide EstimateFee, MergeFee, Merge, FeePerExtra, MoreUtxos, Generated, Uniform, SumOf, IsMergeOf;
    MergeFeeIsKept(c, score, splits, w);
    var m, per := Merge(c, score, splits, w).value, FeePerExtra(c, w);
    var available, sent := MergeShape(c, score, splits, w);
    LastIsNeeded(c, score, w, sent - available);
    var k := |m.extras| - 1;
    assert m.extras[..k + 1] == m.extras;
    SumOfPrefix(Amount, m.extras, k);
    assert (k + 1) * per == k * per + per;
  }

  lemma LastIsNeeded(c: Context, score: nat, w: Transfer, required: nat)
    requires w.Body().inputs != [] && MoreUtxos(c, score, w, required).Ok? && required > 0
    ensures
      var extras := MoreUtxos(c, score, w, required).value;
      extras != [] && SumOf(Amount, extras[..|extras| - 1]) < required + (|extras| - 1) * FeePerExtra(c, w)
  {
    hide FeePerExtra;
    var spare, fee := Filter(Spare(c, score), c.index), FeePerExtra(c, w);
    var n := Enough(spare, fee, required, 0, 0).value;
    ExtrasAreLeast(spare, fee, required, 0, 0);
    assert spare[..n][..n - 1] == spare[..n - 1];
  }

  lemma NothingIsWorthless()
    ensures SumOf(Amount<TxId>, []) == 0
  {
  }

  /** Whatever it took, a merge pays out the greater of what was available and what was asked. */
  lemma MergedPays(c: Context, m: Merged, splits: seq<Transfer>, w: Transfer, available: nat, sent: nat)
    requires MergeAmounts(c, m, splits, w, available, sent)
    ensures TotalOut(m.tx) == Max(available, sent) && |m.tx.Body().outputs| == if available > sent then 2 else 1
  {
    hide Generated, MergeFee, SumOf, Uniform;
    var payments := MergePayments(c.r, available, sent);
    GeneratedShape(c.p, payments, Map(MergeCoin(c.r), splits) + m.extras, w.Body().payload);
    PaymentsTotal(payments);
  }

  lemma ExtrasPayTheirWay(c: Context, score: nat, w: Transfer, required: nat)
    requires w.Body().inputs != [] && MoreUtxos(c, score, w, required).Ok?
    ensures
      var extras := MoreUtxos(c, score, w, required).value;
      extras != [] && SumOf(Amount, extras) >= required + |extras| * FeePerExtra(c, w)
  {
    hide FeePerExtra;
    var spare, fee := Filter(Spare(c, score), c.index), FeePerExtra(c, w);
    var n := Enough(spare, fee, required, 0, 0).value;
    ExtrasCover(spare, fee, required, 0, 0);
    assert n > 0;
    assert |spare[..n]| == n;
  }

  lemma PaymentsTotal(ys: seq<Payment>)
    requires 1 <= |ys| <= 2
    ensures SumOf(Value, Map(OutputFor, ys)) == ys[0].amount + if |ys| == 2 then ys[1].amount else 0
  {
    var os := Map(OutputFor, ys);
    assert SumOf(Value, os[1..]) == if |ys| == 2 then ys[1].amount else 0 by {
      if |ys| == 2 {
        assert os[1..][1..] == [];
      }
    }
  }

  /* ----- one level ----- */

  ghost predicate IsHeavyStep(c: Context, score: nat, w: Transfer, splits: seq<Transfer>, merged: Merged, k: nat) {
    var n := |w.Body().inputs|;
    && Aligned(w) && n > 0 && k > 0
    && |splits| == CeilDiv(n, k)
    && (|splits| - 1) * k < n <= |splits| * k
    && Splits(c.p, c.r, w, k, |splits|) == Ok(splits)
    && SplitCounts(c.p, c.r, w) == Ok((|splits|, k))
    && Merge(c, score, splits, w) == Ok(merged)
    && CheckFeeRate(c.p, w).Pass?
  }

  lemma HeavyStep(c: Context, score: nat, w: Transfer) returns (k: nat)
    requires Aligned(w) && StepOf(c, score, w).Ok? && StepOf(c, score, w).value.Heavy?
    ensures IsHeavyStep(c, score, w, StepOf(c, score, w).value.splits, StepOf(c, score, w).value.merged, k)
  {
    hide CheckFeeRate, Merge, SplitOf, ComputeMass;
    var counts := SplitCounts(c.p, c.r, w).value;
    k := counts.1;
    LastSplitStartsInside(|w.Body().inputs|, k);
    SplitsAre(c.p, c.r, w, k, counts.0);
  }
}
