/** The loops of the compounding code (daemon/src/transaction_generator.rs), each proved to compute
    what `Compounding` specifies. */
module Compounder {
  import opened Arithmetic
  import opened Wrappers
  import opened Sequences
  import opened Model
  import opened Mass
  import opened Generate
  import opened Selection
  import opened Compounding
  import opened CompoundingFacts

  /** Indexing needs the start to lie inside the inputs; running past the end stops the loop. */
  method CreateSplitTransaction(p: Params, r: Request, w: Transfer, start: nat, end: nat)
    returns (result: Result<Transfer>)
    requires Aligned(w) && start <= end && start <= |w.Body().inputs|
    ensures result == SplitOf(p, r, Slice(w, start, end))
  {
    hide EstimateFee, Generated;
    var selected: seq<Utxo>, total: nat := [], 0;
    ghost var stop := Min(end, |w.Body().inputs|);
    var i := start;
    while i < end
      invariant start <= i <= stop
      invariant selected == CoinsOf(w)[start..i]
      invariant total == SumOf(Amount, selected)
    {
      if i == |w.Body().inputs| {
        break;
      }
      var utxo := WalletUtxo(w.Body().inputs[i].previousOutpoint, FromUtxoEntry(w.Entries()[i].value),
        w.addressByInputIndex[i]);
      CoinAppends(w, start, i, utxo);
      SumOfSnoc(Amount, selected, utxo);
      total := total + utxo.entry.amount;
      selected := selected + [utxo];
      i := i + 1;
    }
    assert i == stop && selected == Slice(w, start, end);
    if selected != [] {
      var fee := EstimateFee(p, selected, r.rate, r.maxFee, total, []);
      if fee.Err? {
        return Err(fee.error);
      }
      if total < fee.value {
        return Err(Overflow);
      }
      total := total - fee.value;
    }
    result := GenerateUnsignedTransaction(p, [Payment(r.change, total)], selected, []);
  }

  lemma CoinAppends(w: Transfer, start: nat, i: nat, utxo: Utxo)
    requires Aligned(w) && start <= i < |w.Body().inputs| && utxo == CoinAt(w, i)
    ensures CoinsOf(w)[start..i + 1] == CoinsOf(w)[start..i] + [utxo]
  {
    assert CoinsOf(w)[i] == utxo;
  }

  /* ----- adding coins to a merge ----- */

  lemma FilterEmpty(f: Utxo -> bool, us: seq<Utxo>)
    ensures Filter(f, us[..0]) == []
  {
  }

  lemma NeverEnough(spare: seq<Utxo>, fee: nat, required: nat, added: nat)
    ensures Enough(spare, fee, required, |spare|, added) == Err(InsufficientFunds(required, added))
  {
  }

  lemma SpareMeans(c: Context, score: nat, u: Utxo)
    ensures Spare(c, score)(u) <==>
      u !in c.selected && !Unspendable(c.p.coinbaseMaturity, u, score) && (c.r.from == [] || u.address in c.r.from)
  {
    assert Spare(c, score)(u) == (u !in c.selected && Eligible(c.p, c.r, score)(u));
  }

  /** After some coins of the index: the spare ones among them were all taken and fall short. */
  ghost predicate StillShort(spare: seq<Utxo>, fee: nat, required: nat, extras: seq<Utxo>, added: nat) {
    && extras <= spare && added < required
    && Enough(spare, fee, required, 0, 0) == Enough(spare, fee, required, |extras|, added)
  }

  method MoreUtxosForMerge(c: Context, score: nat, w: Transfer, required: nat) returns (result: Result<seq<Utxo>>)
    requires w.Body().inputs != [] && required > 0
    ensures result == MoreUtxos(c, score, w, required)
  {
    hide FeePerExtra, Enough, Spare, Filter;
    var fee := FeePerExtra(c, w);
    var extras: seq<Utxo>, added: nat := [], 0;
    ghost var spare := Filter(Spare(c, score), c.index);
    FilterEmpty(Spare(c, score), c.index);
    for i := 0 to |c.index|
      invariant extras == Filter(Spare(c, score), c.index[..i])
      invariant StillShort(spare, fee, required, extras, added)
    {
      FilterPrefix(Spare(c, score), c.index, i);
      FilterGrows(Spare(c, score), c.index, i + 1);
      var utxo := c.index[i];
      SpareMeans(c, score, utxo);
      if utxo in c.selected || Unspendable(c.p.coinbaseMaturity, utxo, score) {
        continue;
      }
      if !(c.r.from == [] || utxo.address in c.r.from) {
        continue;
      }
      var enough;
      extras, added, enough := AddOne(spare, fee, required, extras, added, utxo);
      if enough.Err? {
        return Err(enough.error);
      }
      if enough.value {
        assert spare[..|extras|] == extras;
        return Ok(extras);
      }
    }
    assert c.index[..|c.index|] == c.index;
    NeverEnough(spare, fee, required, added);
    return Err(InsufficientFunds(required, added));
  }

  /** Takes one more spare coin; says whether that is enough. A coin worth less than its fee makes
      the unchecked subtraction trap. */
  method AddOne(ghost spare: seq<Utxo>, fee: nat, required: nat, extras: seq<Utxo>, added: nat, utxo: Utxo)
    returns (newExtras: seq<Utxo>, newAdded: nat, enough: Result<bool>)
    requires StillShort(spare, fee, required, extras, added) && extras + [utxo] <= spare
    ensures newExtras == extras + [utxo]
    ensures enough.Err? ==> Enough(spare, fee, required, 0, 0) == Err(enough.error)
    ensures enough == Ok(true) ==> Enough(spare, fee, required, 0, 0) == Ok(|newExtras|)
    ensures enough == Ok(false) ==> StillShort(spare, fee, required, newExtras, newAdded)
  {
    assert spare[|extras|] == utxo;
    newExtras := extras + [utxo];
    if utxo.entry.amount < fee {
      return newExtras, added, Err(Overflow);
    }
    newAdded := added + utxo.entry.amount - fee;
    enough := Ok(newAdded >= required);
  }

  /* ----- the merge ----- */

  method MergeTransaction(c: Context, score: nat, splits: seq<Transfer>, w: Transfer) returns (result: Result<Merged>)
    requires w.Body().inputs != [] && forall s :: s in splits ==> s.Body().outputs != []
    ensures result == Merge(c, score, splits, w)
  {
    hide EstimateFee, MoreUtxos, Generated, FeePerExtra, SumOf, IdOf;
    NothingIsWorthless();
    if |w.Body().outputs| != 1 && |w.Body().outputs| != 2 {
      return Err(BuildFailed);
    }
    var coins: seq<Utxo>, total: nat := [], 0;
    for i := 0 to |splits|
      invariant coins == Map(MergeCoin(c.r), splits[..i])
      invariant total == SumOf(Amount, coins)
    {
      assert splits[i] in splits;
      var output := splits[i].Body().outputs[0];
      var utxo := WalletUtxo(Outpoint(IdOf(splits[i].Body()), 0),
                             WalletUtxoEntry(output.value, output.script, UNACCEPTED_DAA_SCORE, false, false),
                             c.r.changeWallet);
      MapPrefix(MergeCoin(c.r), splits, i);
      SumOfSnoc(Amount, coins, utxo);
      coins := coins + [utxo];
      total := total + output.value;
    }
    assert splits[..|splits|] == splits;
    var fee := EstimateFee(c.p, coins, c.r.rate, c.r.maxFee, c.r.amount, w.Body().payload);
    if fee.Err? {
      return Err(fee.error);
    }
    if total < fee.value {
      return Err(Overflow);
    }
    var available: nat := total - fee.value;
    var sent: nat := if c.r.isSendAll then available else c.r.amount;
    var extras := [];
    if available < sent {
      if c.r.preselected != [] {
        return Err(InsufficientFunds(sent, available));
      }
      var more := MoreUtxosForMerge(c, score, w, sent - available);
      if more.Err? {
        return Err(more.error);
      }
      extras := more.value;
    }
    var payments := [Payment(c.r.to, sent)];
    if available > sent {
      payments := payments + [Payment(c.r.change, available - sent)];
    }
    assert payments == MergePayments(c.r, available, sent);
    var tx := GenerateUnsignedTransaction(c.p, payments, coins + extras, w.Body().payload);
    result := if tx.Err? then Err(tx.error) else Ok(Merged(extras, tx.value));
  }

  /* ----- the recursion ----- */

  method MaybeAutoCompound(fuel: nat, c: Context, scores: nat -> nat, level: nat, w: Transfer)
    returns (result: Result<seq<Transfer>>)
    requires Aligned(w)
    ensures result == Compound(fuel, c, scores, level, w)
    decreases fuel
  {
    hide SplitOf, Generated, Merge, ComputeMass, FeeMass, CheckFeeRate, Splits;
    var check := CheckFeeRate(c.p, w);
    if check.Fail? {
      return Err(check.error);
    }
    if ComputeMass(c.p, w.Body()) < MAXIMUM_STANDARD_TRANSACTION_MASS {
      return Ok([w]);
    }
    var counts := SplitCounts(c.p, c.r, w);
    if counts.Err? {
      return Err(counts.error);
    }
    var splits := SplitAll(c, w, counts.value.0, counts.value.1);
    if splits.Err? {
      return Err(splits.error);
    }
    var merged := MergeTransaction(c, scores(level), splits.value, w);
    if merged.Err? {
      return Err(merged.error);
    }
    if fuel == 0 {
      return Err(OutOfFuel);
    }
    MergeIsAligned(c, scores(level), splits.value, w);
    var rest := MaybeAutoCompound(fuel - 1, c, scores, level + 1, merged.value.tx);
    result := if rest.Err? then Err(rest.error) else Ok(splits.value + rest.value);
  }

  method SplitAll(c: Context, w: Transfer, splitCount: nat, inputsPerSplit: nat) returns (result: Result<seq<Transfer>>)
    requires Aligned(w) && |w.Body().inputs| > 0 && inputsPerSplit > 0
    requires splitCount == CeilDiv(|w.Body().inputs|, inputsPerSplit)
    ensures result == Splits(c.p, c.r, w, inputsPerSplit, splitCount)
    ensures result.Ok? ==> forall s :: s in result.value ==> s.Body().outputs != []
  {
    hide SplitOf, CheckFeeRate, Slice;
    var splits: seq<Transfer> := [];
    for i := 0 to splitCount
      invariant Splits(c.p, c.r, w, inputsPerSplit, i) == Ok(splits)
      invariant forall s :: s in splits ==> s.Body().outputs != []
    {
      RangesPartition(|w.Body().inputs|, inputsPerSplit, 0);
      var split := CreateSplitTransaction(c.p, c.r, w, i * inputsPerSplit, i * inputsPerSplit + inputsPerSplit);
      if split.Err? {
        SplitsFail(c, w, inputsPerSplit, i + 1, splitCount, split.error);
        return Err(split.error);
      }
      var check := CheckFeeRate(c.p, split.value);
      if check.Fail? {
        SplitsFail(c, w, inputsPerSplit, i + 1, splitCount, check.error);
        return Err(check.error);
      }
      SplitHasOutput(c.p, c.r, Slice(w, i * inputsPerSplit, i * inputsPerSplit + inputsPerSplit));
      splits := splits + [split.value];
    }
    result := Ok(splits);
  }

  lemma SplitHasOutput(p: Params, r: Request, coins: seq<Utxo>)
    requires SplitOf(p, r, coins).Ok?
    ensures SplitOf(p, r, coins).value.Body().outputs != []
  {
  }

  /** The first failure is the whole loop's failure. */
  lemma {:induction false} SplitsFail(c: Context, w: Transfer, k: nat, i: nat, n: nat, error: WalletError)
    requires Aligned(w) && i <= n && Splits(c.p, c.r, w, k, i) == Err(error)
    ensures Splits(c.p, c.r, w, k, n) == Err(error)
  {
    hide SplitOf, CheckFeeRate, Slice;
    if i < n {
      SplitsFail(c, w, k, i, n - 1, error);
    }
  }
}
