/** The transaction a selection makes, every split and every merge pay the relay floor. */
module FeeSufficiency {
  import opened Arithmetic
  import opened Wrappers
  import opened Sequences
  import opened Model
  import opened Mass
  import opened Generate
  import opened Selection
  import opened SelectionTheorems
  import opened Compounding
  import opened CompoundingFacts
  import opened BatchTheorems
  import opened FeeTheorems
  import opened Termination

  /** The payees are real addresses and the rate is at least the mempool's minimum. */
  ghost predicate Sane(p: Params, r: Request) {
    p.Valid() && r.to.Valid() && r.change.Valid() && r.rate >= 1.0
  }

  lemma PassesIffFeeCovers(p: Params, w: Transfer)
    ensures CheckFeeRate(p, w).Pass? <==> Fee(w) >= FeeMass(p, w.Body())
    ensures CheckFeeRate(p, w).Fail? && TotalIn(w) >= TotalOut(w) ==> CheckFeeRate(p, w).error.FeeTooLow?
  {
  }

  /* ----- the original transaction ----- */

  lemma OriginalFee(p: Params, r: Request, index: seq<Utxo>, score: nat) returns (fee: U64)
    requires Select(p, r, index, score).Ok? && NoDup(Map(UtxoOutpoint, Available(r, index)))
    requires var s := Select(p, r, index, score).value; s.utxos != [] && Original(p, r, s).Ok?
    ensures
      var s, es := Select(p, r, index, score).value, Candidates(p, r, index, score);
      var w := Original(p, r, s).value;
      && es != [] && PerUtxoFee(p, r, es[0]) == Ok(fee) && s.utxos[0] == es[0]
      && IsBuilt(p, w, OriginalPayments(r, s), s.utxos, r.payload)
      && Fee(w) == |s.utxos| * fee
  {
    hide Select, Generated, PerUtxoFee;
    SelectionIsSound(p, r, index, score);
    var s, es := Select(p, r, index, score).value, Candidates(p, r, index, score);
    fee := PerUtxoFee(p, r, es[0]).value;
    GeneratedShape(p, OriginalPayments(r, s), s.utxos, r.payload);
    PaymentsTotal(OriginalPayments(r, s));
  }

  /** What the first candidate's mock assumed about the recipient. */
  function RecipientGuess(r: Request, first: Utxo): nat {
    if r.isSendAll then first.entry.amount else r.amount
  }

  lemma FeeIsOfMock(p: Params, r: Request, first: Utxo, fee: U64) returns (mass: nat)
    requires PerUtxoFee(p, r, first) == Ok(fee)
    ensures EstimateMass(p, [first], RecipientGuess(r, first), r.payload) == Ok(mass)
    ensures fee == FeeAt(mass, r.rate, r.maxFee) <= r.maxFee
  {
    hide EstimateMass;
    mass := EstimateMass(p, [first], RecipientGuess(r, first), r.payload).value;
  }

  /** Charging the fee of the one-coin mock for every coin pays for the whole transaction, whether
      or not there is change, unless the cap is below the mock's own mass. */
  lemma OriginalPassesCheck(p: Params, r: Request, index: seq<Utxo>, score: nat)
    requires Sane(p, r) && NoDup(Map(UtxoOutpoint, Available(r, index)))
    requires Select(p, r, index, score).Ok?
    requires var s := Select(p, r, index, score).value; s.utxos != [] && Original(p, r, s).Ok?
    requires
      var first := Select(p, r, index, score).value.utxos[0];
      var mass := EstimateMass(p, [first], RecipientGuess(r, first), r.payload);
      mass.Ok? ==> mass.value <= r.maxFee
    ensures CheckFeeRate(p, Original(p, r, Select(p, r, index, score).value).value).Pass?
  {
    hide Select, Original, Candidates, EstimateMass, IsBuilt, FeeMass, CheckFeeRate, NoDup, Available, SumOf,
      OriginalPayments, RecipientGuess, PerUtxoFee, MockOutputs, FeeAt;
    var fee := OriginalFee(p, r, index, score);
    var s := Select(p, r, index, score).value;
    var w, first := Original(p, r, s).value, s.utxos[0];
    var mass := FeeIsOfMock(p, r, first, fee);
    FeeCoversMass(mass, r.rate, r.maxFee);
    OriginalOutputs(p, r, index, score);
    EstimateCovers(p, w, OriginalPayments(r, s), s.utxos, r.payload, [first], RecipientGuess(r, first), |s.utxos|);
    TimesMonotone(mass, fee, |s.utxos|);
    PassesIffFeeCovers(p, w);
  }

  /** The cap holds for the estimate of one coin, not for the transaction, which pays the estimate
      once for every coin it spends: it stays within the cap exactly when that many estimates do. */
  lemma CapIsPerCoin(p: Params, r: Request, index: seq<Utxo>, score: nat)
    requires Select(p, r, index, score).Ok? && NoDup(Map(UtxoOutpoint, Available(r, index)))
    requires var s := Select(p, r, index, score).value; s.utxos != [] && Original(p, r, s).Ok?
    ensures
      var s := Select(p, r, index, score).value;
      var w, estimate := Original(p, r, s).value, PerUtxoFee(p, r, s.utxos[0]);
      && estimate.Ok? && estimate.value <= r.maxFee && Fee(w) == |s.utxos| * estimate.value
      && (Fee(w) <= r.maxFee <==> |s.utxos| * estimate.value <= r.maxFee)
      && (estimate.value == r.maxFee && r.maxFee > 0 && |s.utxos| >= 2 ==> Fee(w) > r.maxFee)
  {
    hide Select, Original, Candidates, EstimateMass, IsBuilt, NoDup, Available, SumOf, OriginalPayments,
      RecipientGuess, PerUtxoFee, Fee, FeeAt;
    var fee := OriginalFee(p, r, index, score);
    var s := Select(p, r, index, score).value;
    var mass := FeeIsOfMock(p, r, s.utxos[0], fee);
    if |s.utxos| >= 2 {
      TimesMonotone(2, |s.utxos|, fee);
    }
  }

  /** The loop stops after `k` candidates, and `k` estimates are within the cap. */
  ghost predicate StopsWithinCap(r: Request, es: seq<Utxo>, fee: nat, k: nat) {
    1 <= k <= |es| && k * fee <= r.maxFee && (k == |es| || StopsAt(r, es, fee, k))
  }

  /** The same, before anything is selected: the transaction will stay within the cap exactly when
      the coins end the loop, by their amounts or by running out, at a count the cap has room for. */
  lemma CapHoldsIffStopsInTime(p: Params, r: Request, index: seq<Utxo>, score: nat, fee: U64)
    requires var es := Candidates(p, r, index, score); es != [] && PerUtxoFee(p, r, es[0]) == Ok(fee)
    requires Select(p, r, index, score).Ok? && NoDup(Map(UtxoOutpoint, Available(r, index)))
    requires Original(p, r, Select(p, r, index, score).value).Ok?
    ensures
      var w, es := Original(p, r, Select(p, r, index, score).value).value, Candidates(p, r, index, score);
      && (Fee(w) <= r.maxFee <==> exists k :: StopsWithinCap(r, es, fee, k))
      && (|es| * fee <= r.maxFee ==> Fee(w) <= r.maxFee)
      && (r.isSendAll ==> (Fee(w) <= r.maxFee <==> |es| * fee <= r.maxFee))
  {
    hide Select, Original, Candidates, IsBuilt, NoDup, Available, SumOf, OriginalPayments, PerUtxoFee, Fee;
    var es := Candidates(p, r, index, score);
    var n := ChosenPrefix(p, r, index, score);
    var same := OriginalFee(p, r, index, score);
    TimesMonotone(n, |es|, fee);
    if n * fee <= r.maxFee {
      assert StopsWithinCap(r, es, fee, n);
    }
    if k :| StopsWithinCap(r, es, fee, k) {
      TimesMonotone(n, k, fee);
    }
  }

  /** Change with a single input means the mock had two outputs as well. */
  lemma OriginalOutputs(p: Params, r: Request, index: seq<Utxo>, score: nat)
    requires r.to.Valid() && r.change.Valid() && NoDup(Map(UtxoOutpoint, Available(r, index)))
    requires Select(p, r, index, score).Ok? && Select(p, r, index, score).value.utxos != []
    ensures
      var s := Select(p, r, index, score).value;
      && ValidPayees(OriginalPayments(r, s))
      && |OriginalPayments(r, s)| <= |s.utxos| * MockOutputs([s.utxos[0]], RecipientGuess(r, s.utxos[0]))
  {
    hide Select, Candidates, PerUtxoFee;
    SelectionIsSound(p, r, index, score);
    var s := Select(p, r, index, score).value;
    var outs := MockOutputs([s.utxos[0]], RecipientGuess(r, s.utxos[0]));
    if |s.utxos| == 1 {
      assert s.utxos == [s.utxos[0]] && s.utxos[1..] == [];
    } else {
      TimesMonotone(2, |s.utxos|, outs);
    }
  }

  /* ----- splits ----- */

  lemma SplitPassesCheck(p: Params, r: Request, coins: seq<Utxo>)
    requires Sane(p, r) && coins != [] && SplitOf(p, r, coins).Ok?
    requires EstimateMass(p, coins, WorthOf(coins), []).Ok? ==>
      EstimateMass(p, coins, WorthOf(coins), []).value <= r.maxFee
    ensures CheckFeeRate(p, SplitOf(p, r, coins).value).Pass?
  {
    hide EstimateMass, Generated, IsBuilt, CheckFeeRate, FeeMass;
    var s, total := SplitOf(p, r, coins).value, WorthOf(coins);
    var mass := EstimateMass(p, coins, total, []).value;
    var fee := FeeAt(mass, r.rate, r.maxFee);
    var payments := [Payment(r.change, total - fee)];
    assert Generated(p, payments, coins, []) == Ok(s);
    GeneratedShape(p, payments, coins, []);
    FeeCoversMass(mass, r.rate, r.maxFee);
    EstimateCovers(p, s, payments, coins, [], coins, total, 1);
    BuiltTotals(p, s, payments, coins, []);
    PassesIffFeeCovers(p, s);
  }

  lemma BuiltTotals(p: Params, w: Transfer, ys: seq<Payment>, us: seq<Utxo>, payload: seq<Byte>)
    requires IsBuilt(p, w, ys, us, payload) && 1 <= |ys| <= 2
    ensures TotalIn(w) == WorthOf(us)
    ensures TotalOut(w) == ys[0].amount + if |ys| == 2 then ys[1].amount else 0
  {
    PaymentsTotal(ys);
  }

  /* ----- merges ----- */

  function MergeCoins(c: Context, splits: seq<Transfer>): seq<Utxo> {
    Map(MergeCoin(c.r), splits)
  }

  function MergeMockMass(c: Context, splits: seq<Transfer>, w: Transfer): Result<nat> {
    EstimateMass(c.p, MergeCoins(c, splits), c.r.amount, w.Body().payload)
  }

  /** A merge that adds no coin pays its floor: its mock has as many inputs and, when it has
      change, two outputs. */
  lemma MergePassesCheck(c: Context, score: nat, splits: seq<Transfer>, w: Transfer)
    requires Sane(c.p, c.r) && splits != []
    requires w.Body().inputs != [] && Merge(c, score, splits, w).Ok? && Merge(c, score, splits, w).value.extras == []
    requires MergeMockMass(c, splits, w).Ok? ==> MergeMockMass(c, splits, w).value <= c.r.maxFee
    ensures CheckFeeRate(c.p, Merge(c, score, splits, w).value.tx).Pass?
  {
    hide Merge, EstimateMass, Generated, IsBuilt, CheckFeeRate, FeeMass, IsMergeOf, MoreUtxos;
    var m := Merge(c, score, splits, w).value;
    var available, sent := MergeShape(c, score, splits, w);
    MergeFeeIsKept(c, score, splits, w);
    var coins, payload := MergeCoins(c, splits), w.Body().payload;
    var payments := MergePayments(c.r, available, sent);
    assert coins + [] == coins;
    GeneratedShape(c.p, payments, coins, payload);
    var mass := MergeMockMass(c, splits, w).value;
    FeeCoversMass(mass, c.r.rate, c.r.maxFee);
    EstimateCovers(c.p, m.tx, payments, coins, payload, coins, c.r.amount, 1);
    PassesIffFeeCovers(c.p, m.tx);
  }

  /** The local guess at one more input's mass is not below what the input adds to either mass. */
  ghost predicate SafeGuess(p: Params, guess: nat) {
    && PerInput(p) <= guess <= U64_MAX
    && (PerInputBytes(p) * p.transientFactor) as real * p.transientCofactor <= guess as real
  }

  lemma NormalizedMaxAdds(p: Params, n: nat, x: nat, outs: nat, mockOuts: nat, len: nat, guess: nat)
    requires p.Valid() && SafeGuess(p, guess) && outs <= mockOuts
    ensures NormalizedMax(p, WorstMasses(p, n + x, outs, len))
      <= NormalizedMax(p, WorstMasses(p, n, mockOuts, len)) + x * guess
  {
    hide NormalizedMax, PerInput, PerInputBytes, WorstMasses;
    var big, small, q := WorstMasses(p, n + x, outs, len), WorstMasses(p, n, mockOuts, len), p.transientCofactor;
    var one := NormalizedMax(p, small);
    ComputeAdds(p, n, x, outs, mockOuts, len, guess);
    var perInput := PerInputBytes(p) * p.transientFactor;
    TransientAdds(p, n, x, outs, mockOuts, len);
    TransientWithin(small.transient, big.transient, x, perInput, q, one, guess);
    NormalizedMaxWithin(p, big, one + x * guess);
  }

  lemma LinearAdds(base: nat, n: nat, x: nat, perInput: nat, outs: nat, mockOuts: nat, perOutput: nat)
    requires outs <= mockOuts
    ensures base + (n + x) * perInput + outs * perOutput <= base + n * perInput + mockOuts * perOutput + x * perInput
  {
    TimesMonotone(outs, mockOuts, perOutput);
    assert (n + x) * perInput == n * perInput + x * perInput;
  }

  lemma ComputeAdds(p: Params, n: nat, x: nat, outs: nat, mockOuts: nat, len: nat, guess: nat)
    requires outs <= mockOuts && PerInput(p) <= guess
    ensures WorstMasses(p, n + x, outs, len).compute <= WorstMasses(p, n, mockOuts, len).compute + x * guess
  {
    hide PerInput, WorstOutputMass;
    LinearAdds(p.blankMass + p.payloadByteMass * len, n, x, PerInput(p), outs, mockOuts, WorstOutputMass(p));
    TimesMonotone(PerInput(p), guess, x);
  }

  lemma TransientAdds(p: Params, n: nat, x: nat, outs: nat, mockOuts: nat, len: nat)
    requires outs <= mockOuts
    ensures WorstMasses(p, n + x, outs, len).transient
      <= WorstMasses(p, n, mockOuts, len).transient + x * (PerInputBytes(p) * p.transientFactor)
  {
    hide PerInputBytes, WorstOutputSize;
    LinearAdds(p.blankSize + len, n, x, PerInputBytes(p), outs, mockOuts, WorstOutputSize(p));
    var small := p.blankSize + len + n * PerInputBytes(p) + mockOuts * WorstOutputSize(p);
    var big := p.blankSize + len + (n + x) * PerInputBytes(p) + outs * WorstOutputSize(p);
    TimesMonotone(big, small + x * PerInputBytes(p), p.transientFactor);
    assert (small + x * PerInputBytes(p)) * p.transientFactor
        == small * p.transientFactor + x * (PerInputBytes(p) * p.transientFactor);
  }

  lemma TransientWithin(small: nat, big: nat, x: nat, perInput: nat, q: real, one: nat, guess: nat)
    requires q >= 0.0 && big <= small + x * perInput
    requires small as real * q <= one as real && perInput as real * q <= guess as real
    ensures big as real * q <= (one + x * guess) as real
  {
    ProductAsReal(x, perInput);
    ProductAsReal(x, guess);
    RealWithin(small as real, big as real, x as real, perInput as real, q, one as real, guess as real);
  }

  lemma ProductAsReal(x: nat, y: nat)
    ensures (x * y) as real == x as real * y as real
  {
  }

  lemma RealWithin(small: real, big: real, x: real, perInput: real, q: real, one: real, guess: real)
    requires q >= 0.0 && x >= 0.0 && big <= small + x * perInput
    requires small * q <= one && perInput * q <= guess
    ensures big * q <= one + x * guess
  {
    TimesReal(big, small + x * perInput, q);
    RealDistributes(small, x * perInput, q);
    RealAssociates(x, perInput, q);
    TimesReal(perInput * q, guess, x);
  }

  lemma RealDistributes(a: real, b: real, q: real)
    ensures (a + b) * q == a * q + b * q
  {
  }

  lemma RealAssociates(a: real, b: real, q: real)
    ensures (a * b) * q == (b * q) * a
  {
  }

  lemma MergeWithExtrasMass(c: Context, score: nat, splits: seq<Transfer>, w: Transfer, guess: nat)
    requires Sane(c.p, c.r) && splits != [] && w.Body().inputs != [] && SafeGuess(c.p, guess)
    requires Merge(c, score, splits, w).Ok? && Merge(c, score, splits, w).value.extras != []
    ensures MergeMockMass(c, splits, w).Ok?
    ensures var m := Merge(c, score, splits, w).value;
      FeeMass(c.p, m.tx.Body()) <= MergeMockMass(c, splits, w).value + |m.extras| * guess
  {
    hide Merge, EstimateMass, Generated, IsBuilt, CheckFeeRate, NormalizedMax, NonContextualMasses, IsMergeOf,
      MoreUtxos, SafeGuess, WorstMasses, FeeMass;
    var m := Merge(c, score, splits, w).value;
    var available, sent := MergeShape(c, score, splits, w);
    var coins, payload, x := MergeCoins(c, splits), w.Body().payload, |m.extras|;
    var payments := MergePayments(c.r, available, sent);
    GeneratedShape(c.p, payments, coins + m.extras, payload);
    BuiltMasses(c.p, m.tx, payments, coins + m.extras, payload);
    BuiltWithin(c.p, m.tx, |coins| + x, |payments|, |payload|);
    EstimateIsWorst(c.p, coins, c.r.amount, payload);
    NormalizedMaxAdds(c.p, |coins|, x, |payments|, MockOutputs(coins, c.r.amount), |payload|, guess);
  }

  /** A merge that adds coins pays its floor too, if the guess is safe. */
  lemma MergeWithExtrasPassesCheck(c: Context, score: nat, splits: seq<Transfer>, w: Transfer)
    requires Sane(c.p, c.r) && splits != [] && w.Body().inputs != []
    requires Merge(c, score, splits, w).Ok? && Merge(c, score, splits, w).value.extras != []
    requires SafeGuess(c.p, MassPerInputGuess(c.p, w.Body().inputs[0]))
    requires MergeMockMass(c, splits, w).Ok? ==> MergeMockMass(c, splits, w).value <= c.r.maxFee
    ensures CheckFeeRate(c.p, Merge(c, score, splits, w).value.tx).Pass?
  {
    hide Merge, EstimateMass, CheckFeeRate, MassPerInputGuess, AsU64, FeeMass, FeePerExtra, FeeAt;
    var m := Merge(c, score, splits, w).value;
    MergeFeeIsKept(c, score, splits, w);
    var guess := MassPerInputGuess(c.p, w.Body().inputs[0]);
    MergeWithExtrasMass(c, score, splits, w, guess);
    FeeCoversMass(MergeMockMass(c, splits, w).value, c.r.rate, c.r.maxFee);
    FeeCoversGuess(c, w);
    TimesMonotone(guess, FeePerExtra(c, w), |m.extras|);
    PassesIffFeeCovers(c.p, m.tx);
  }

  lemma FeeCoversGuess(c: Context, w: Transfer)
    requires c.r.rate >= 1.0 && w.Body().inputs != []
    requires SafeGuess(c.p, MassPerInputGuess(c.p, w.Body().inputs[0]))
    ensures FeePerExtra(c, w) >= MassPerInputGuess(c.p, w.Body().inputs[0])
  {
    hide MassPerInputGuess;
    FeeCoversMass(MassPerInputGuess(c.p, w.Body().inputs[0]), c.r.rate, U64_MAX);
  }

  lemma BuiltWithin(p: Params, w: Transfer, n: nat, outs: nat, len: nat)
    requires
      var actual, worst := NonContextualMasses(p, w.Body()), WorstMasses(p, n, outs, len);
      p.Valid() && actual.compute <= worst.compute && actual.transient <= worst.transient
    ensures FeeMass(p, w.Body()) <= NormalizedMax(p, WorstMasses(p, n, outs, len))
  {
    hide NormalizedMax, WorstMasses, NonContextualMasses;
    NormalizedMaxScales(p, WorstMasses(p, n, outs, len), NonContextualMasses(p, w.Body()), 1);
  }

  /* ----- a whole run ----- */

  /** An upper bound on every estimate of at most `n` coins and `len` bytes of payload. */
  function EstimateBound(p: Params, n: nat, len: nat): nat {
    NormalizedMax(p, WorstMasses(p, n, 2, len))
  }

  lemma EstimateWithinBound(p: Params, us: seq<Utxo>, v: nat, payload: seq<Byte>, n: nat, len: nat)
    requires p.Valid() && |us| <= n && |payload| <= len && EstimateMass(p, us, v, payload).Ok?
    ensures EstimateMass(p, us, v, payload).value <= EstimateBound(p, n, len)
  {
    hide EstimateMass, NormalizedMax, WorstMasses;
    EstimateIsWorst(p, us, v, payload);
    var outs := MockOutputs(us, v);
    WorstGrows(p, |us|, outs, |payload|, n, 2, len);
    NormalizedMaxScales(p, WorstMasses(p, n, 2, len), WorstMasses(p, |us|, outs, |payload|), 1);
  }

  lemma WorstGrows(p: Params, k: nat, outs: nat, short: nat, n: nat, more: nat, len: nat)
    requires k <= n && outs <= more && short <= len
    ensures
      var small, big := WorstMasses(p, k, outs, short), WorstMasses(p, n, more, len);
      small.compute <= big.compute && small.transient <= big.transient
  {
    hide PerInput, PerInputBytes, WorstOutputMass, WorstOutputSize, Affine;
    TimesMonotone(short, len, p.payloadByteMass);
    AffineGrows(p.blankMass + p.payloadByteMass * short, p.blankMass + p.payloadByteMass * len, k, n, PerInput(p),
                outs, more, WorstOutputMass(p));
    AffineGrows(p.blankSize + short, p.blankSize + len, k, n, PerInputBytes(p), outs, more, WorstOutputSize(p));
    TimesMonotone(Affine(p.blankSize + short, k, PerInputBytes(p), outs, WorstOutputSize(p)),
                  Affine(p.blankSize + len, n, PerInputBytes(p), more, WorstOutputSize(p)), p.transientFactor);
  }

  lemma AffineGrows(base: nat, larger: nat, k: nat, n: nat, perInput: nat, outs: nat, more: nat, perOutput: nat)
    requires base <= larger && k <= n && outs <= more
    ensures Affine(base, k, perInput, outs, perOutput) <= Affine(larger, n, perInput, more, perOutput)
  {
    TimesMonotone(k, n, perInput);
    TimesMonotone(outs, more, perOutput);
  }

  /** The cap leaves room for every estimate the run can make. */
  ghost predicate Uncapped(c: Context, w: Transfer) {
    EstimateBound(c.p, |w.Body().inputs|, |w.Body().payload|) <= c.r.maxFee
  }

  lemma {:induction false} SplitsNeverTooLow(c: Context, w: Transfer, k: nat, i: nat)
    requires Sane(c.p, c.r) && Aligned(w) && Uncapped(c, w) && k > 0 && StartsInside(w, k, i)
    ensures Splits(c.p, c.r, w, k, i).Err? ==>
      !Splits(c.p, c.r, w, k, i).error.FeeTooLow? && !Splits(c.p, c.r, w, k, i).error.OutOfFuel?
  {
    hide SplitOf, CheckFeeRate, SliceNo, Slice, StartsInside, Uncapped, Sane;
    if i > 0 {
      EarlierStartsInside(w, k, i);
      SplitsNeverTooLow(c, w, k, i - 1);
      if SplitOf(c.p, c.r, SliceNo(w, k, i - 1)).Ok? {
        SliceSplitPasses(c, w, k, i - 1);
      }
      assert SliceNo(w, k, i - 1) == Slice(w, (i - 1) * k, (i - 1) * k + k) by {
        SliceIs(w, k, i - 1);
      }
    }
  }

  lemma SliceIs(w: Transfer, k: nat, j: nat)
    requires Aligned(w)
    ensures SliceNo(w, k, j) == Slice(w, j * k, j * k + k)
  {
  }

  lemma SliceSplitPasses(c: Context, w: Transfer, k: nat, j: nat)
    requires Sane(c.p, c.r) && Aligned(w) && Uncapped(c, w) && k > 0 && j * k < |w.Body().inputs|
    requires SplitOf(c.p, c.r, SliceNo(w, k, j)).Ok?
    ensures CheckFeeRate(c.p, SplitOf(c.p, c.r, SliceNo(w, k, j)).value).Pass?
  {
    hide SplitOf, CheckFeeRate, SliceNo, EstimateMass, EstimateBound, WorthOf;
    var coins := SliceNo(w, k, j);
    SliceExtends(w, k, j);
    SliceBounds(w, k, j);
    if EstimateMass(c.p, coins, WorthOf(coins), []).Ok? {
      EstimateWithinBound(c.p, coins, WorthOf(coins), [], |w.Body().inputs|, |w.Body().payload|);
    }
    SplitPassesCheck(c.p, c.r, coins);
  }

  lemma StepNeverTooLow(c: Context, score: nat, w: Transfer)
    requires Sane(c.p, c.r) && Aligned(w) && Uncapped(c, w) && CheckFeeRate(c.p, w).Pass?
    ensures StepOf(c, score, w).Err? ==> !StepOf(c, score, w).error.FeeTooLow? && !StepOf(c, score, w).error.OutOfFuel?
  {
    hide CheckFeeRate, ComputeMass, Splits, Merge, SplitOf;
    if SplitCounts(c.p, c.r, w).Ok? {
      var counts := SplitCounts(c.p, c.r, w).value;
      LastSplitStartsInside(|w.Body().inputs|, counts.1);
      SplitsNeverTooLow(c, w, counts.1, counts.0);
    }
  }

  lemma FewerSplitsThanInputs(n: nat, k: nat)
    requires n > 0 && k > 0
    ensures CeilDiv(n, k) <= n
  {
    LastSplitStartsInside(n, k);
    var s := CeilDiv(n, k);
    TimesMonotone(1, k, s - 1);
  }

  /** With a rate of at least 1 and a cap that does not bind, a run that adds no coin never fails
      for a fee that is too low: the original, every split and every merge pay their floor. */
  lemma {:induction false} NeverFeeTooLow(fuel: nat, c: Context, scores: nat -> nat, level: nat, w: Transfer)
    requires Sane(c.p, c.r) && Aligned(w) && Uniform(c.p, w.Body()) && Uncapped(c, w) && CheckFeeRate(c.p, w).Pass?
    requires c.p.Valid() && NoExtras(c, scores, level, w)
    ensures Compound(fuel, c, scores, level, w).Err? ==> !Compound(fuel, c, scores, level, w).error.FeeTooLow?
    decreases fuel
  {
    hide StepOf, CheckFeeRate, Uniform, EstimateBound, Sane, Merge, Splits, SplitCounts, MergeAmounts, NoExtras;
    var step := StepOf(c, scores(level), w);
    StepNeverTooLow(c, scores(level), w);
    if step.Ok? && step.value.Heavy? && fuel > 0 {
      var merge := step.value.merged.tx;
      var k := HeavyStep(c, scores(level), w);
      NoExtrasBelow(c, scores, level, w);
      MergeKeepsGoing(c, scores(level), w, step.value, k);
      NeverFeeTooLow(fuel - 1, c, scores, level + 1, merge);
    }
  }

  lemma MergeKeepsGoing(c: Context, score: nat, w: Transfer, step: Step, k: nat)
    requires Sane(c.p, c.r) && Uniform(c.p, w.Body()) && Uncapped(c, w)
    requires step.Heavy? && step.merged.extras == [] && IsHeavyStep(c, score, w, step.splits, step.merged, k)
    ensures
      var merge := step.merged.tx;
      Aligned(merge) && Uniform(c.p, merge.Body()) && Uncapped(c, merge) && CheckFeeRate(c.p, merge).Pass?
  {
    hide CheckFeeRate, Uniform, Merge, Splits, SplitCounts, MergeAmounts, EstimateMass, CeilDiv, NormalizedMax,
      WorstMasses, FeePerExtra;
    var merge, coins := step.merged.tx, MergeCoins(c, step.splits);
    var available, sent := MergeShape(c, score, step.splits, w);
    MergeFeeIsKept(c, score, step.splits, w);
    FewerSplitsThanInputs(|w.Body().inputs|, k);
    if MergeMockMass(c, step.splits, w).Ok? {
      EstimateWithinBound(c.p, coins, c.r.amount, w.Body().payload, |w.Body().inputs|, |w.Body().payload|);
    }
    MergePassesCheck(c, score, step.splits, w);
    assert |Spends(merge.Body())| == |step.splits|;
    WorstGrows(c.p, |step.splits|, 2, |w.Body().payload|, |w.Body().inputs|, 2, |w.Body().payload|);
    NormalizedMaxScales(c.p, WorstMasses(c.p, |w.Body().inputs|, 2, |w.Body().payload|),
                        WorstMasses(c.p, |step.splits|, 2, |w.Body().payload|), 1);
  }
}
