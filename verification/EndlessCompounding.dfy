/** A request on which compounding never ends: six equal coins, 28 signatures to an input, and an
    amount that four of the coins pay exactly. Each level's splits burn what the two remaining
    coins bring, and those two are added again at every level. */
module EndlessCompounding {
  import opened Arithmetic
  import opened Wrappers
  import opened Sequences
  import opened Model
  import opened Mass
  import opened Generate
  import opened Selection
  import opened Compounding
  import opened CompoundingFacts
  import opened BatchTheorems
  import opened FeeTheorems
  import opened FewSpare
  import opened Termination

  const ZEROS: seq<Byte> := [0, 0, 0, 0, 0, 0, 0, 0]
  const ONES: seq<Byte> := [1, 1, 1, 1, 1, 1, 1, 1]
  const ADDRESS := Address(PubKey, ZEROS + ZEROS + ZEROS + ZEROS)
  const RECIPIENT := Address(PubKey, ONES + ONES + ONES + ONES)
  const OWN := WalletAddress(0, 0, External)
  const NATIVE: seq<Byte> := ZEROS + ZEROS + [0, 0, 0, 0]

  /** A daemon on the native subnetwork whose key file holds one public key and asks for 28 signatures
      (nothing compares the two numbers), with upstream's coefficients: a gram for a byte, ten more
      for a byte of output script, 1000 for a signature operation, signatures of 66 bytes, four
      transient grams for a byte at half the weight of compute grams, as on devnet. */
  const PARAMS := Params(0, NATIVE, 280, 28, 1000, 1848, false, 1000, 94, 52, 38, 11, 1, 94, 52, 18, 66, 4, 0.5)

  /** An amount of 1.196 KAS at 1000 sompi a gram. */
  const REQUEST := Request(RECIPIENT, 119_600_000, false, [], [], [], ADDRESS, OWN, 1000.0, U64_MAX)

  function CoinOf(id: nat, amount: nat): Utxo {
    WalletUtxo(Outpoint(NodeTx(id), 0), WalletUtxoEntry(amount, PayToAddressScript(ADDRESS), 0, false, false), OWN)
  }

  function Piece(i: nat): Utxo {
    CoinOf(i, 60_317_000)
  }

  const SELECTED := [Piece(0), Piece(1), Piece(2), Piece(3)]

  /** Two more coins; the amount of the last one is left open. */
  function SpareOf(last: nat): seq<Utxo> {
    [Piece(4), CoinOf(5, last)]
  }

  function ContextOf(last: nat): Context {
    Context(PARAMS, REQUEST, SELECTED + SpareOf(last), SELECTED)
  }

  const INDEX := SELECTED + SpareOf(60_317_000)
  const CONTEXT := ContextOf(60_317_000)

  /* ----- evaluating the estimates ----- */

  lemma FeeIsMass(mass: nat, cap: U64)
    requires 1000 * mass <= cap
    ensures FeeAt(mass, 1000.0, cap) == 1000 * mass
  {
    assert mass as real * 1000.0 == (1000 * mass) as real;
  }

  lemma OnlyCompute(m: Masses)
    requires m.transient <= 2 * m.compute
    ensures NormalizedMax(PARAMS, m) == m.compute
  {
    assert m.transient as real * 0.5 <= m.compute as real;
    NormalizedMaxWithin(PARAMS, m, m.compute);
  }

  lemma InputsWeighTheSame()
    ensures PerInput(PARAMS) == 29_900 && WorstOutputMass(PARAMS) == 423
    ensures PerInputBytes(PARAMS) == 1900 && WorstOutputSize(PARAMS) == 53
  {
  }

  lemma MassOf(n: nat, outs: nat)
    requires outs >= 1
    ensures NormalizedMax(PARAMS, WorstMasses(PARAMS, n, outs, 0)) == 94 + 29_900 * n + 423 * outs
  {
    hide PerInput, WorstOutputMass, NormalizedMax, PerInputBytes, WorstOutputSize;
    InputsWeighTheSame();
    OnlyCompute(WorstMasses(PARAMS, n, outs, 0));
  }

  lemma NothingIsDerivable()
    ensures Derivable([])
  {
  }

  lemma EstimateExists(us: seq<Utxo>, value: nat)
    requires Derivable(us)
    ensures EstimateMass(PARAMS, us, value, []).Ok?
  {
    hide FeeMass, Generated, MockPayments, Derivable;
    BuildsIff(PARAMS, MockPayments(us, value), us, []);
  }

  lemma Estimate(us: seq<Utxo>, value: nat, cap: U64)
    requires Derivable(us) && 1000 * (940 + 29_900 * |us|) <= cap
    ensures EstimateFee(PARAMS, us, 1000.0, cap, value, [])
      == Ok(1000 * (94 + 29_900 * |us| + 423 * MockOutputs(us, value)))
  {
    hide EstimateMass, WorstMasses, NormalizedMax, FeeAt, SumOf, Derivable, MockOutputs;
    EstimateExists(us, value);
    EstimateIsWorst(PARAMS, us, value, []);
    MassOf(|us|, MockOutputs(us, value));
    FeeIsMass(94 + 29_900 * |us| + 423 * MockOutputs(us, value), cap);
  }

  /** Every payee has the shorter of the two kinds of public-key address. */
  ghost predicate ShortPayees(ys: seq<Payment>) {
    ys != [] && forall y :: y in ys ==> y.address.version == PubKey && y.address.Valid()
  }

  lemma Built(ys: seq<Payment>, us: seq<Utxo>)
    requires Derivable(us) && ShortPayees(ys)
    ensures Generated(PARAMS, ys, us, []).Ok?
    ensures
      var w := Generated(PARAMS, ys, us, []).value;
      && IsBuilt(PARAMS, w, ys, us, [])
      && ComputeMass(PARAMS, w.Body()) == FeeMass(PARAMS, w.Body()) == 94 + 29_900 * |us| + 412 * |ys|
  {
    hide Generated, IsBuilt, FeeMass, ComputeMass, ShortPayees;
    BuildsIff(PARAMS, ys, us, []);
    GeneratedShape(PARAMS, ys, us, []);
    WeighUniform(Generated(PARAMS, ys, us, []).value, ys, us);
  }

  lemma WeighUniform(w: Transfer, ys: seq<Payment>, us: seq<Utxo>)
    requires IsBuilt(PARAMS, w, ys, us, []) && ShortPayees(ys)
    ensures ComputeMass(PARAMS, w.Body()) == FeeMass(PARAMS, w.Body()) == 94 + 29_900 * |us| + 412 * |ys|
  {
    hide PerInput, PerInputBytes, ComputeMass, TransientMass, NormalizedMax, SumOf, Uniform;
    InputsWeighTheSame();
    UniformComputeMass(PARAMS, w.Body());
    UniformSize(PARAMS, w.Body());
    ShortOutputs(ys);
    assert |w.Body().inputs| == |us|;
    OnlyCompute(NonContextualMasses(PARAMS, w.Body()));
  }

  lemma ShortOutputs(ys: seq<Payment>)
    requires ShortPayees(ys)
    ensures SumOf(OutputMass(PARAMS), Map(OutputFor, ys)) == 412 * |ys|
    ensures SumOf(OutputSize(PARAMS), Map(OutputFor, ys)) == 52 * |ys|
  {
    var os := Map(OutputFor, ys);
    forall o | o in os ensures OutputMass(PARAMS)(o) == 412 && OutputSize(PARAMS)(o) == 52 {
      var i :| 0 <= i < |os| && os[i] == o;
      assert ys[i] in ys;
    }
    SumOfUniform(OutputMass(PARAMS), os, 412);
    SumOfUniform(OutputSize(PARAMS), os, 52);
  }

  /* ----- one level ----- */

  /** Four inputs, of which the first three are worth 180951000 and the last one `x`, pay 119600000. */
  ghost predicate FourInputs(w: Transfer, x: nat) {
    && Aligned(w) && Uniform(PARAMS, w.Body()) && Derivable(CoinsOf(w))
    && |w.Body().inputs| == 4 && |w.Body().outputs| == 1 && w.Body().payload == []
    && WorthOf(CoinsOf(w)[..3]) == 180_951_000 && Amount(CoinsOf(w)[3]) == x
    && TotalOut(w) == 119_600_000
    && ComputeMass(PARAMS, w.Body()) == FeeMass(PARAMS, w.Body()) == 120_106
  }

  lemma FourPayEnough(w: Transfer, x: nat)
    requires FourInputs(w, x) && x >= 60_317_000
    ensures CheckFeeRate(PARAMS, w).Pass?
  {
    hide FeeMass, ComputeMass, Uniform, Derivable;
    CoinsAreEntries(w);
    SumOfPrefix(Amount, CoinsOf(w), 3);
    assert CoinsOf(w)[..4] == CoinsOf(w);
  }

  lemma OneOf(coins: seq<Utxo>, total: nat, out: nat)
    requires Derivable(coins) && 1 <= |coins| <= 10 && WorthOf(coins) == total
    requires total == out + 517_000 + 29_900_000 * |coins|
    ensures SplitOf(PARAMS, REQUEST, coins).Ok?
    ensures
      var s := SplitOf(PARAMS, REQUEST, coins).value;
      CheckFeeRate(PARAMS, s).Pass? && Left(MergeCoin(REQUEST)(s), out)
  {
    hide Generated, EstimateFee, FeeMass, ComputeMass;
    Estimate(coins, total, U64_MAX);
    var ys := [Payment(ADDRESS, out)];
    Built(ys, coins);
    var s := Generated(PARAMS, ys, coins, []).value;
    assert SplitOf(PARAMS, REQUEST, coins) == Ok(s);
    PaymentsTotal(ys);
  }

  /** What a split leaves for the merge: a coin of this amount. */
  ghost predicate Left(u: Utxo, amount: nat) {
    Amount(u) == amount && u.address == OWN
  }

  lemma FourSplitCounts(w: Transfer, x: nat)
    requires FourInputs(w, x)
    ensures SplitCounts(PARAMS, REQUEST, w) == Ok((2, 3))
  {
    hide FeeMass, Derivable, Generated, PerInput;
    InputsWeighTheSame();
    UniformComputeMass(PARAMS, w.Body());
    UniformComputeMass(PARAMS, WithoutInputs(w));
    hide ComputeMass, Uniform;
    NothingIsDerivable();
    Built([Payment(ADDRESS, 0)], []);
    assert SplitOf(PARAMS, REQUEST, []) == Generated(PARAMS, [Payment(ADDRESS, 0)], [], []);
    assert CeilDiv(119_600, 4) == 29_900 && CeilDiv(4, 3) == 2 && 99_494 / 29_900 == 3;
  }

  lemma WorthOfCons(us: seq<Utxo>)
    requires us != []
    ensures WorthOf(us) == Amount(us[0]) + WorthOf(us[1..])
  {
  }

  lemma FourSplits(w: Transfer, x: nat) returns (splits: seq<Transfer>)
    requires FourInputs(w, x) && x >= 60_317_000
    ensures Splits(PARAMS, REQUEST, w, 3, 2) == Ok(splits)
    ensures |splits| == 2 && Left(MergeCoin(REQUEST)(splits[0]), 90_734_000)
    ensures Left(MergeCoin(REQUEST)(splits[1]), x - 30_417_000)
  {
    hide SplitOf, CheckFeeRate, FeeMass, ComputeMass, Uniform, WorthOf, Left;
    var coins := CoinsOf(w);
    var s0, s1 := coins[..3], [coins[3]];
    assert Slice(w, 0, 3) == s0 && Slice(w, 3, 6) == s1;
    WorthOfOne(coins[3]);
    OneOf(s0, 180_951_000, 90_734_000);
    OneOf(s1, x, x - 30_417_000);
    splits := [SplitOf(PARAMS, REQUEST, s0).value, SplitOf(PARAMS, REQUEST, s1).value];
    assert Splits(PARAMS, REQUEST, w, 3, 0) == Ok([]);
    assert [] + [splits[0]] == [splits[0]];
    assert Splits(PARAMS, REQUEST, w, 3, 1) == Ok([splits[0]]);
    assert [splits[0]] + [splits[1]] == splits;
  }

  lemma OnlyLastTwoAreSpare(last: nat, score: nat, i: nat, amount: nat)
    ensures i < 4 ==> !Spare(ContextOf(last), score)(Piece(i))
    ensures 4 <= i ==> Spare(ContextOf(last), score)(CoinOf(i, amount))
  {
    if i >= 4 {
      assert forall j :: 0 <= j < 4 ==> SELECTED[j].outpoint.transactionId == NodeTx(j);
      assert CoinOf(i, amount).outpoint.transactionId == NodeTx(i);
      assert CoinOf(i, amount) !in SELECTED;
      assert !Unspendable(PARAMS.coinbaseMaturity, CoinOf(i, amount), score) && REQUEST.from == [];
      assert Eligible(PARAMS, REQUEST, score)(CoinOf(i, amount));
    }
    assert SELECTED[0] == Piece(0) && SELECTED[1] == Piece(1) && SELECTED[2] == Piece(2) && SELECTED[3] == Piece(3);
  }

  lemma FilterTwo(f: Utxo -> bool, u: Utxo, v: Utxo)
    ensures Filter(f, [u, v]) == (if f(u) then [u] else []) + (if f(v) then [v] else [])
  {
    assert [u, v] == [u] + [v] && [u][1..] == [] && [v][1..] == [];
    FilterAppend(f, [u], [v]);
  }

  lemma SpareCoins(last: nat, score: nat)
    ensures Filter(Spare(ContextOf(last), score), ContextOf(last).index) == SpareOf(last)
  {
    hide Spare, Filter;
    var f, a, b, c := Spare(ContextOf(last), score), [Piece(0), Piece(1)], [Piece(2), Piece(3)], SpareOf(last);
    assert ContextOf(last).index == a + b + c;
    FilterAppend(f, a + b, c);
    FilterAppend(f, a, b);
    FilterTwo(f, Piece(0), Piece(1));
    FilterTwo(f, Piece(2), Piece(3));
    FilterTwo(f, Piece(4), CoinOf(5, last));
    OnlyLastTwoAreSpare(last, score, 0, 0);
    OnlyLastTwoAreSpare(last, score, 1, 0);
    OnlyLastTwoAreSpare(last, score, 2, 0);
    OnlyLastTwoAreSpare(last, score, 3, 0);
    OnlyLastTwoAreSpare(last, score, 4, 60_317_000);
    OnlyLastTwoAreSpare(last, score, 5, last);
  }

  /** Each input more is guessed to cost 29912000: one spare coin is enough for up to 30405000. */
  lemma FourAdd(w: Transfer, x: nat, last: nat, score: nat, required: nat)
    requires FourInputs(w, x) && last >= 60_317_000 && 0 < required <= 59_706_000
    ensures MoreUtxos(ContextOf(last), score, w, required)
      == Ok(if required <= 30_405_000 then [Piece(4)] else SpareOf(last))
  {
    hide FeeMass, ComputeMass, Derivable, Filter, Spare;
    SpareCoins(last, score);
    assert w.Body().inputs[0] in w.Body().inputs;
    FeeIsMass(29_912, U64_MAX);
    var cs := SpareOf(last);
    assert FeePerExtra(ContextOf(last), w) == 29_912_000;
    if required <= 30_405_000 {
      assert Enough(cs, 29_912_000, required, 0, 0) == Ok(1);
      assert cs[..1] == [Piece(4)];
    } else {
      assert Enough(cs, 29_912_000, required, 1, 30_405_000) == Ok(2);
      assert Enough(cs, 29_912_000, required, 0, 0) == Ok(2);
      assert cs[..2] == cs;
    }
  }

  lemma TwoMergeFee(w: Transfer, last: nat, splits: seq<Transfer>, y: nat)
    requires w.Body().payload == [] && |splits| == 2 && y >= 29_900_000
    requires Left(MergeCoin(REQUEST)(splits[0]), 90_734_000) && Left(MergeCoin(REQUEST)(splits[1]), y)
    ensures WorthOf(Map(MergeCoin(REQUEST), splits)) == 90_734_000 + y
    ensures MergeFee(ContextOf(last), splits, w) == Ok(60_740_000)
  {
    hide EstimateFee;
    var coins := Map(MergeCoin(REQUEST), splits);
    assert coins == [coins[0]] + [coins[1]];
    WorthOfOne(coins[0]);
    WorthOfOne(coins[1]);
    SumOfAppend(Amount, [coins[0]], [coins[1]]);
    Estimate(coins, 119_600_000, U64_MAX);
  }

  /** Two splits that leave 90734000 and `y` fall 89606000 - `y` short; the merge adds coins for that. */
  lemma TwoMerge(w: Transfer, x: nat, last: nat, score: nat, splits: seq<Transfer>, y: nat, extras: seq<Utxo>)
    requires FourInputs(w, x) && last >= 60_317_000
    requires |splits| == 2 && 29_900_000 <= y < 89_606_000
    requires Left(MergeCoin(REQUEST)(splits[0]), 90_734_000) && Left(MergeCoin(REQUEST)(splits[1]), y)
    requires extras == if 89_606_000 - y <= 30_405_000 then [Piece(4)] else SpareOf(last)
    ensures
      var us := Map(MergeCoin(REQUEST), splits) + extras;
      && Derivable(us)
      && Generated(PARAMS, [Payment(RECIPIENT, 119_600_000)], us, []).Ok?
      && Merge(ContextOf(last), score, splits, w)
           == Ok(Merged(extras, Generated(PARAMS, [Payment(RECIPIENT, 119_600_000)], us, []).value))
  {
    hide FeeMass, ComputeMass, MergeFee, Generated, MoreUtxos, Merge, Uniform, Aligned, MergeCoin, PathsOf;
    var coins := Map(MergeCoin(REQUEST), splits);
    TwoMergeFee(w, last, splits, y);
    FourAdd(w, x, last, score, 89_606_000 - y);
    Built([Payment(RECIPIENT, 119_600_000)], coins + extras);
    assert MergePayments(REQUEST, 29_994_000 + y, 119_600_000) == [Payment(RECIPIENT, 119_600_000)];
    var tx := Generated(PARAMS, [Payment(RECIPIENT, 119_600_000)], coins + extras, []).value;
    ShortMerge(ContextOf(last), score, splits, w, 60_740_000, 29_994_000 + y, 89_606_000 - y, extras, tx);
  }

  /** A merge that has to add coins, put together from its parts. */
  lemma ShortMerge(c: Context, score: nat, splits: seq<Transfer>, w: Transfer, fee: U64, available: nat, short: nat,
                   extras: seq<Utxo>, tx: Transfer)
    requires w.Body().inputs != [] && |w.Body().outputs| == 1 && !c.r.isSendAll && c.r.preselected == []
    requires MergeFee(c, splits, w) == Ok(fee) && SumOf(Amount, Map(MergeCoin(c.r), splits)) == fee + available
    requires 0 < short && available + short == c.r.amount && MoreUtxos(c, score, w, short) == Ok(extras)
    requires Generated(c.p, MergePayments(c.r, available, c.r.amount), Map(MergeCoin(c.r), splits) + extras,
                       w.Body().payload) == Ok(tx)
    ensures Merge(c, score, splits, w) == Ok(Merged(extras, tx))
  {
    hide Generated, MergeFee, MoreUtxos, MergePayments, SumOf;
  }

  lemma CoinsAre(t: Transfer, ys: seq<Payment>, us: seq<Utxo>)
    requires Generated(PARAMS, ys, us, []) == Ok(t) && IsBuilt(PARAMS, t, ys, us, []) && Derivable(us)
    ensures Aligned(t) && |CoinsOf(t)| == |us| && Derivable(CoinsOf(t))
    ensures forall i :: 0 <= i < |us| ==> Amount(CoinsOf(t)[i]) == Amount(us[i])
  {
    hide Generated, CoinsOf, IsBuilt, Aligned;
    CoinsOfBuilt(PARAMS, ys, us, []);
    forall u | u in CoinsOf(t) ensures u.address.index < HARDENED {
      var i :| 0 <= i < |us| && CoinsOf(t)[i] == u;
      assert us[i] in us;
    }
  }

  /** What four such coins make. */
  lemma FourMake(us: seq<Utxo>, x: nat)
    requires |us| == 4 && Derivable(us)
    requires Amount(us[0]) + Amount(us[1]) + Amount(us[2]) == 180_951_000 && Amount(us[3]) == x
    ensures
      var t := Generated(PARAMS, [Payment(RECIPIENT, 119_600_000)], us, []);
      t.Ok? && FourInputs(t.value, x)
  {
    hide FeeMass, ComputeMass, Generated, Aligned, CoinsOf, Derivable, SumOf;
    var ys := [Payment(RECIPIENT, 119_600_000)];
    Built(ys, us);
    PaymentsTotal(ys);
    var t := Generated(PARAMS, ys, us, []).value;
    CoinsAre(t, ys, us);
    var three := CoinsOf(t)[..3];
    WorthOfCons(three);
    WorthOfCons(three[1..]);
    assert three[1..][1..] == [three[2]];
    WorthOfOne(three[2]);
  }

  /** With four equal inputs both spare coins are added: the next level has four inputs again, and
      the last spare coin is the last of them. */
  lemma FourBecomeFour(w: Transfer, last: nat, score: nat)
    requires FourInputs(w, 60_317_000) && last >= 60_317_000
    ensures
      var step := StepOf(ContextOf(last), score, w);
      && step.Ok? && step.value.Heavy?
      && step.value.merged.extras == SpareOf(last) && FourInputs(step.value.merged.tx, last)
  {
    hide Splits, SplitCounts, Merge, CheckFeeRate, FourInputs, Generated, Left;
    FourPayEnough(w, 60_317_000);
    FourSplitCounts(w, 60_317_000);
    var splits := FourSplits(w, 60_317_000);
    TwoMerge(w, 60_317_000, last, score, splits, 29_900_000, SpareOf(last));
    var us := Map(MergeCoin(REQUEST), splits) + SpareOf(last);
    FourWorth(splits, us, last);
    FourMake(us, last);
    FourIsHeavy(w, 60_317_000);
  }

  lemma FourWorth(splits: seq<Transfer>, us: seq<Utxo>, last: nat)
    requires |splits| == 2 && Left(MergeCoin(REQUEST)(splits[0]), 90_734_000)
    requires Left(MergeCoin(REQUEST)(splits[1]), 29_900_000)
    requires us == Map(MergeCoin(REQUEST), splits) + SpareOf(last)
    ensures |us| == 4 && Amount(us[0]) + Amount(us[1]) + Amount(us[2]) == 180_951_000 && Amount(us[3]) == last
  {
  }

  lemma FourIsHeavy(w: Transfer, x: nat)
    requires FourInputs(w, x)
    ensures Aligned(w) && ComputeMass(PARAMS, w.Body()) >= MAXIMUM_STANDARD_TRANSACTION_MASS
  {
  }

  /* ----- forever ----- */

  /** Whatever the fuel, and whatever scores the node reports, the recursion is not done. */
  lemma {:induction false} NeverHalts(fuel: nat, scores: nat -> nat, level: nat, w: Transfer)
    requires FourInputs(w, 60_317_000)
    ensures !Halts(fuel, CONTEXT, scores, level, w)
    ensures Compound(fuel, CONTEXT, scores, level, w) == Err(OutOfFuel)
    decreases fuel
  {
    hide StepOf, FourInputs;
    FourIsHeavy(w, 60_317_000);
    FourBecomeFour(w, 60_317_000, scores(level));
    if fuel > 0 {
      NeverHalts(fuel - 1, scores, level + 1, StepOf(CONTEXT, scores(level), w).value.merged.tx);
    }
    HaltingFixesResult(fuel, 0, CONTEXT, scores, level, w);
  }

  /* ----- from the request ----- */

  lemma PrefixWorth(more: seq<Utxo>, k: nat)
    requires k <= 4
    ensures (SELECTED + more)[..k] == SELECTED[..k] && SumOf(Amount, (SELECTED + more)[..k]) == 60_317_000 * k
  {
    assert (SELECTED + more)[..k] == SELECTED[..k];
    SumOfUniform(Amount, SELECTED[..k], 60_317_000);
  }

  lemma TakesFour(r: Request, more: seq<Utxo>)
    requires r.amount == 119_600_000 && !r.isSendAll
    ensures TakenAfter(r, SELECTED + more, 30_417_000, 0) == Ok(4)
  {
    hide SumOf;
    var es := SELECTED + more;
    PrefixWorth(more, 1);
    PrefixWorth(more, 2);
    PrefixWorth(more, 3);
    PrefixWorth(more, 4);
    assert TakenFrom(r, es, 30_417_000, 4) == Ok(4);
    assert TakenFrom(r, es, 30_417_000, 3) == Ok(4);
    assert TakenFrom(r, es, 30_417_000, 2) == Ok(4);
  }

  /** Whatever else the wallet holds, and under any cap that one estimate fits. */
  lemma SelectsFour(more: seq<Utxo>, cap: U64, score: nat)
    requires cap >= 30_840_000 && forall u :: u in more ==> Eligible(PARAMS, REQUEST, score)(u)
    ensures PerUtxoFee(PARAMS, REQUEST.(maxFee := cap), Piece(0)) == Ok(30_417_000)
    ensures Candidates(PARAMS, REQUEST.(maxFee := cap), SELECTED + more, score) == SELECTED + more
    ensures Select(PARAMS, REQUEST.(maxFee := cap), SELECTED + more, score) == Ok(Selected(SELECTED, 119_600_000, 0))
  {
    hide Filter, EstimateFee;
    var r, index := REQUEST.(maxFee := cap), SELECTED + more;
    forall u | u in index ensures Eligible(PARAMS, r, score)(u) {
      assert u in SELECTED || Eligible(PARAMS, REQUEST, score)(u);
    }
    FilterAll(Eligible(PARAMS, r, score), index);
    WorthOfOne(Piece(0));
    Estimate([Piece(0)], 119_600_000, cap);
    assert index[0] == Piece(0);
    TakesFour(r, more);
    PrefixWorth(more, 4);
    assert index[..4] == SELECTED;
    SelectSettles(PARAMS, r, index, score, SELECTED, 30_417_000, 121_668_000);
  }

  /** The original transaction, under any cap. */
  lemma OriginalIsFour(cap: U64)
    ensures
      var w := Original(PARAMS, REQUEST.(maxFee := cap), Selected(SELECTED, 119_600_000, 0));
      w.Ok? && FourInputs(w.value, 60_317_000) && Aligned(w.value)
  {
    hide FourInputs, Generated;
    var r := REQUEST.(maxFee := cap);
    assert OriginalPayments(r, Selected(SELECTED, 119_600_000, 0)) == [Payment(RECIPIENT, 119_600_000)];
    FourMake(SELECTED, 60_317_000);
    FourIsHeavy(Generated(PARAMS, [Payment(RECIPIENT, 119_600_000)], SELECTED, []).value, 60_317_000);
  }

  /** The selector pays this request with four coins, without change, and compounding the
      transaction it makes never ends. */
  lemma RequestNeverCompletes(score: nat, fuel: nat, scores: nat -> nat)
    ensures Select(PARAMS, REQUEST, INDEX, score) == Ok(Selected(SELECTED, 119_600_000, 0))
    ensures
      var w := Original(PARAMS, REQUEST, Selected(SELECTED, 119_600_000, 0));
      && w.Ok? && Aligned(w.value)
      && !Halts(fuel, CONTEXT, scores, 0, w.value)
      && Compound(fuel, CONTEXT, scores, 0, w.value) == Err(OutOfFuel)
  {
    hide Select, Compound, Halts, FourInputs, Original;
    assert REQUEST.(maxFee := U64_MAX) == REQUEST;
    SelectsFour(SpareOf(60_317_000), U64_MAX, score);
    OriginalIsFour(U64_MAX);
    NeverHalts(fuel, scores, 0, Original(PARAMS, REQUEST, Selected(SELECTED, 119_600_000, 0)).value);
  }

  /* ----- how close it is ----- */

  lemma TwoEverSpare()
    ensures SpareCount(CONTEXT) == 2
  {
    hide Filter;
    forall u | u in CONTEXT.index ensures EverSpare(CONTEXT)(u) == Spare(CONTEXT, 0)(u) {
      assert u.entry == Piece(0).entry;
      assert !Unspendable(PARAMS.coinbaseMaturity, u, 0) && REQUEST.from == [];
      assert Eligible(PARAMS, REQUEST, 0)(u) && CONTEXT.p == PARAMS && CONTEXT.r == REQUEST;
    }
    FilterSame(EverSpare(CONTEXT), Spare(CONTEXT, 0), CONTEXT.index);
    SpareCoins(60_317_000, 0);
  }

  /** Four inputs are the fewest that are too heavy, three fit a split: with one spare coin instead
      of two the condition of `EndsWhenFewSpare` would hold. */
  lemma OneSpareCoinTooMany()
    ensures PARAMS.Valid() && LeastHeavy(PARAMS, 0) == 4 && SplitSize(PARAMS, ADDRESS) == 3
    ensures CeilDiv(4, 3) + SpareCount(CONTEXT) == LeastHeavy(PARAMS, 0) && !Dwindles(CONTEXT, 0)
  {
    hide SpareCount;
    InputsWeighTheSame();
    TwoEverSpare();
    assert Weight(PARAMS, 0, 0) == 940;
    assert CeilDiv(99_060, 29_900) == 4 && CeilDiv(4, 3) == 2 && 99_494 / 29_900 == 3;
  }
}
