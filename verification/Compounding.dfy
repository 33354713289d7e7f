/** Splitting a transaction that is too heavy into compounding transactions and merging their
    outputs, recursively (daemon/src/transaction_generator.rs, maybe_auto_compound_transaction). */
module Compounding {
  import opened Arithmetic
  import opened Wrappers
  import opened Sequences
  import opened Model
  import opened Mass
  import opened Generate
  import opened Selection

  /** What stays the same through one request: `index` is the wallet's coins in index order,
      `selected` the coins the selector chose for the original transaction. */
  datatype Context = Context(p: Params, r: Request, index: seq<Utxo>, selected: seq<Utxo>)

  /** One entry and one address for each input, as every transaction built here has. */
  ghost predicate Aligned(w: Transfer) {
    && |w.Entries()| == |w.Body().inputs| == |w.addressByInputIndex|
    && forall i :: 0 <= i < |w.Entries()| ==> w.Entries()[i].Some?
  }

  /* ----- the fee check ----- */

  /** A fee rate below 1 sompi per gram is refused; `max_fee` plays no part. */
  function CheckFeeRate(p: Params, w: Transfer): Outcome {
    if TotalIn(w) < TotalOut(w) then Fail(InsufficientFunds(TotalOut(w), TotalIn(w)))
    else if Fee(w) < FeeMass(p, w.Body()) then Fail(FeeTooLow(Fee(w), FeeMass(p, w.Body())))
    else Pass
  }

  /* ----- splitting ----- */

  function CoinAt(w: Transfer, i: nat): Utxo
    requires Aligned(w) && i < |w.Body().inputs|
  {
    WalletUtxo(w.Body().inputs[i].previousOutpoint, FromUtxoEntry(w.Entries()[i].value), w.addressByInputIndex[i])
  }

  function CoinsOf(w: Transfer): (us: seq<Utxo>)
    requires Aligned(w)
    ensures |us| == |w.Body().inputs|
  {
    seq(|w.Body().inputs|, i requires 0 <= i < |w.Body().inputs| => CoinAt(w, i))
  }

  /** The inputs from `start` up to `end`, or up to the last one. (A start past the last one would
      be out of bounds; `RangesPartition` shows that there is none.) */
  function Slice(w: Transfer, start: nat, end: nat): seq<Utxo>
    requires Aligned(w) && start <= end
  {
    var n := |w.Body().inputs|;
    CoinsOf(w)[Min(start, n)..Min(end, n)]
  }

  function SplitOf(p: Params, r: Request, coins: seq<Utxo>): (s: Result<Transfer>)
    ensures s.Err? ==> s.error == Bip32Derivation || s.error == Overflow
  {
    var total := SumOf(Amount, coins);
    // no coins: a dummy, built only to be weighed
    var fee :- if coins == [] then Ok(0) else EstimateFee(p, coins, r.rate, r.maxFee, total, []);
    :- Need(fee <= total, Overflow);
    Generated(p, [Payment(r.change, total - fee)], coins, [])
  }

  function WithoutInputs(w: Transfer): Body {
    w.Body().(inputs := [])
  }

  /** How many splits, and how many inputs each may hold. */
  function SplitCounts(p: Params, r: Request, w: Transfer): (counts: Result<(nat, nat)>)
    ensures counts.Err? ==>
      counts.error == Bip32Derivation || counts.error == Overflow || counts.error == DivisionByZero
  {
    var n := |w.Body().inputs|;
    var massOfInputs := ComputeMass(p, w.Body()) - ComputeMass(p, WithoutInputs(w));
    :- Need(massOfInputs >= 0, Overflow);
    :- Need(n > 0, DivisionByZero);
    var massPerInput := CeilDiv(massOfInputs, n);
    var dummy :- SplitOf(p, r, []);
    var overhead := ComputeMass(p, dummy.Body());
    :- Need(overhead <= MAXIMUM_STANDARD_TRANSACTION_MASS, Overflow);
    :- Need(massPerInput > 0, DivisionByZero);
    var inputsPerSplit := (MAXIMUM_STANDARD_TRANSACTION_MASS - overhead) / massPerInput;
    :- Need(inputsPerSplit > 0, DivisionByZero);
    Ok((CeilDiv(n, inputsPerSplit), inputsPerSplit))
  }

  /** The first `i` splits of `k` inputs each, every one checked. */
  function Splits(p: Params, r: Request, w: Transfer, k: nat, i: nat): Result<seq<Transfer>>
    requires Aligned(w)
  {
    if i == 0 then Ok([])
    else
      var before :- Splits(p, r, w, k, i - 1);
      var split :- SplitOf(p, r, Slice(w, (i - 1) * k, (i - 1) * k + k));
      :- CheckFeeRate(p, split);
      Ok(before + [split])
  }

  /* ----- merging ----- */

  /** The coin a split leaves for the merge: its only output. */
  function MergeCoin(r: Request): Transfer -> Utxo {
    (s: Transfer) =>
      var o := if s.Body().outputs == [] then Output(0, Script(0, []), None) else s.Body().outputs[0];
      WalletUtxo(Outpoint(IdOf(s.Body()), 0),
                 WalletUtxoEntry(o.value, o.script, UNACCEPTED_DAA_SCORE, false, false), r.changeWallet)
  }

  function Spare(c: Context, score: nat): Utxo -> bool {
    (u: Utxo) => u !in c.selected && Eligible(c.p, c.r, score)(u)
  }

  /** Takes coins, each counted for its value less `fee`, until they reach `required`. */
  function Enough(cs: seq<Utxo>, fee: nat, required: nat, i: nat, added: nat): (n: Result<nat>)
    requires i <= |cs|
    ensures n.Ok? ==> i <= n.value <= |cs|
    ensures n.Err? ==> n.error == Overflow || n.error.InsufficientFunds?
    decreases |cs| - i
  {
    if i == |cs| then Err(InsufficientFunds(required, added))
    else if Amount(cs[i]) < fee then Err(Overflow)
    else if added + Amount(cs[i]) - fee >= required then Ok(i + 1)
    else Enough(cs, fee, required, i + 1, added + Amount(cs[i]) - fee)
  }

  function FeePerExtra(c: Context, w: Transfer): U64
    requires w.Body().inputs != []
  {
    AsU64(MassPerInputGuess(c.p, w.Body().inputs[0]) as real * c.r.rate)
  }

  function MoreUtxos(c: Context, score: nat, w: Transfer, required: nat): (us: Result<seq<Utxo>>)
    requires w.Body().inputs != []
    ensures us.Err? ==> us.error == Overflow || us.error.InsufficientFunds?
  {
    var spare := Filter(Spare(c, score), c.index);
    var n :- Enough(spare, FeePerExtra(c, w), required, 0, 0);
    Ok(spare[..n])
  }

  datatype Merged = Merged(extras: seq<Utxo>, tx: Transfer)

  function MergePayments(r: Request, available: nat, sent: nat): seq<Payment> {
    [Payment(r.to, sent)] + if available > sent then [Payment(r.change, available - sent)] else []
  }

  /** What the merge may pay out, before any coin is added. */
  function MergeFee(c: Context, splits: seq<Transfer>, w: Transfer): (fee: Result<U64>)
    ensures fee.Err? ==> fee.error == Bip32Derivation
  {
    EstimateFee(c.p, Map(MergeCoin(c.r), splits), c.r.rate, c.r.maxFee, c.r.amount, w.Body().payload)
  }

  function Merge(c: Context, score: nat, splits: seq<Transfer>, w: Transfer): (m: Result<Merged>)
    requires w.Body().inputs != []
    ensures m.Err? ==> !m.error.FeeTooLow? && !m.error.OutOfFuel?
  {
    var outputs := |w.Body().outputs|;
    :- Need(outputs == 1 || outputs == 2, BuildFailed);
    var coins := Map(MergeCoin(c.r), splits);
    var total := SumOf(Amount, coins);
    var fee :- MergeFee(c, splits, w);
    :- Need(fee <= total, Overflow);
    var available := total - fee;
    var sent := if c.r.isSendAll then available else c.r.amount;
    // a send-all sends what is available, so only a fixed amount can fall short
    var extras :-
      if available >= sent then Ok([])
      else if c.r.preselected != [] then Err(InsufficientFunds(sent, available))
      else MoreUtxos(c, score, w, sent - available);
    var tx :- Generated(c.p, MergePayments(c.r, available, sent), coins + extras, w.Body().payload);
    Ok(Merged(extras, tx))
  }

  /* ----- the recursion ----- */

  datatype Step = Light | Heavy(splits: seq<Transfer>, merged: Merged)

  /** One level: nothing to do, or the splits and the merge that replace the transaction. */
  function StepOf(c: Context, score: nat, w: Transfer): (step: Result<Step>)
    requires Aligned(w)
    ensures step.Ok? && step.value.Heavy? ==> Aligned(step.value.merged.tx)
  {
    var mass := ComputeMass(c.p, w.Body());
    :- CheckFeeRate(c.p, w);
    if mass < MAXIMUM_STANDARD_TRANSACTION_MASS then Ok(Light)
    else
      var counts :- SplitCounts(c.p, c.r, w);
      var splits :- Splits(c.p, c.r, w, counts.1, counts.0);
      var merged :- Merge(c, score, splits, w);
      assert Aligned(merged.tx) by { MergeIsAligned(c, score, splits, w); }
      Ok(Heavy(splits, merged))
  }

  lemma LastSplitStartsInside(n: nat, k: nat)
    requires n > 0 && k > 0
    ensures 0 < CeilDiv(n, k) && (CeilDiv(n, k) - 1) * k < n <= CeilDiv(n, k) * k
  {
    var s := CeilDiv(n, k);
    assert n == k * (n / k) + n % k;
    assert (s - 1) * k == s * k - k;
  }

  lemma MergeIsAligned(c: Context, score: nat, splits: seq<Transfer>, w: Transfer)
    requires w.Body().inputs != [] && Merge(c, score, splits, w).Ok?
    ensures Aligned(Merge(c, score, splits, w).value.tx)
  {
    hide Generated, MergeFee, MoreUtxos;
    var m := Merge(c, score, splits, w).value;
    var payments, coins :| Generated(c.p, payments, coins, w.Body().payload) == Ok(m.tx);
    GeneratedShape(c.p, payments, coins, w.Body().payload);
  }

  /** `scores` is what the node reports as its DAA score when each level asks. `fuel` bounds how
      often the recursion may go down. */
  function Compound(fuel: nat, c: Context, scores: nat -> nat, level: nat, w: Transfer): Result<seq<Transfer>>
    requires Aligned(w)
    decreases fuel
  {
    match StepOf(c, scores(level), w)
    case Err(e) => Err(e)
    case Ok(Light) => Ok([w])
    case Ok(Heavy(splits, merged)) =>
      if fuel == 0 then Err(OutOfFuel)
      else
        var rest :- Compound(fuel - 1, c, scores, level + 1, merged.tx);
        Ok(splits + rest)
  }

  /** The coins each level of a run added to its merge. */
  function ExtrasPerLevel(fuel: nat, c: Context, scores: nat -> nat, level: nat, w: Transfer): seq<seq<Utxo>>
    requires Aligned(w)
    decreases fuel
  {
    match StepOf(c, scores(level), w)
    case Err(_) => []
    case Ok(Light) => []
    case Ok(Heavy(splits, merged)) =>
      if fuel == 0 then []
      else
        [merged.extras] + ExtrasPerLevel(fuel - 1, c, scores, level + 1, merged.tx)
  }
}
