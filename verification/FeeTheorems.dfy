/** The fee estimates are enough: a fee worked out on a mock covers the transaction it is charged
    for, so the fee check passes. */
module FeeTheorems {
  import opened Arithmetic
  import opened Sequences
  import opened Model
  import opened Mass
  import opened Generate

  /* ----- arithmetic of masses and fees ----- */

  lemma CeilLeast(x: real, n: int)
    requires x <= n as real
    ensures Ceil(x) <= n
  {
  }

  lemma TimesReal(x: real, y: real, q: real)
    requires x <= y && q >= 0.0
    ensures x * q <= y * q
  {
  }

  lemma ScaledTransient(small: nat, big: nat, n: nat, q: real, one: nat)
    requires q >= 0.0 && big <= n * small && small as real * q <= one as real
    ensures big as real * q <= (n * one) as real
  {
    var s, k := small as real, n as real;
    assert (n * small) as real == k * s;
    TimesReal(big as real, k * s, q);
    assert (k * s) * q == (s * q) * k;
    TimesReal(s * q, one as real, k);
    assert (n * one) as real == one as real * k;
  }

  /** `normalized_max` does not grow faster than the number of inputs. */
  lemma NormalizedMaxScales(p: Params, small: Masses, big: Masses, n: nat)
    requires p.Valid() && big.compute <= n * small.compute && big.transient <= n * small.transient
    ensures NormalizedMax(p, big) <= n * NormalizedMax(p, small)
  {
    hide NormalizedMax;
    var one, bound := NormalizedMax(p, small), n * NormalizedMax(p, small);
    ComputeWithin(small.compute, big.compute, n, one);
    ScaledTransient(small.transient, big.transient, n, p.transientCofactor, one);
    NormalizedMaxWithin(p, big, bound);
  }

  lemma ComputeWithin(small: nat, big: nat, n: nat, one: nat)
    requires big <= n * small && small <= one
    ensures big <= n * one
  {
    TimesMonotone(small, one, n);
  }

  lemma NormalizedMaxWithin(p: Params, m: Masses, bound: nat)
    requires m.compute <= bound && m.transient as real * p.transientCofactor <= bound as real
    ensures NormalizedMax(p, m) <= bound
  {
    CeilLeast(m.transient as real * p.transientCofactor, bound);
  }

  /** A fee is what mass times rate comes to, rounded up, unless that exceeds the cap, which it then is. */
  lemma FeeIsRoundedUp(mass: nat, rate: real, maxFee: U64)
    requires rate >= 0.0
    ensures
      var fee, exact := FeeAt(mass, rate, maxFee), mass as real * rate;
      && fee <= maxFee
      && (exact <= maxFee as real ==> exact <= fee as real < exact + 1.0)
      && (exact > maxFee as real ==> fee == maxFee)
  {
    var exact := mass as real * rate;
    TimesReal(0.0, mass as real, rate);
    RoundedUp(exact, maxFee);
  }

  lemma RoundedUp(exact: real, maxFee: U64)
    requires exact >= 0.0
    ensures
      var fee := Min(AsU64(exact), maxFee);
      && (exact <= maxFee as real ==> exact <= fee as real < exact + 1.0)
      && (exact > maxFee as real ==> fee == maxFee)
  {
    hide Ceil;
    CeilBounds(exact);
    if exact <= maxFee as real {
      CeilLeast(exact, maxFee);
    }
  }

  /** At a rate of at least 1 a fee covers its mass exactly when the cap lets it. */
  lemma FeeCoversMass(mass: nat, rate: real, maxFee: U64)
    requires rate >= 1.0
    ensures FeeAt(mass, rate, maxFee) >= mass <==> mass <= maxFee
  {
    assert mass as real * rate >= mass as real;
    CeilBounds(mass as real * rate);
  }

  /* ----- the mock is the worst case ----- */

  const LONGEST_SCRIPT: nat := 35

  lemma ScriptLengths(a: Address)
    requires a.Valid()
    ensures |PayToAddressScript(a).bytes| <= LONGEST_SCRIPT == |PayToAddressScript(FAKE_ADDRESS).bytes|
  {
  }

  function WorstOutputMass(p: Params): nat {
    p.outputMass + p.scriptByteMass * LONGEST_SCRIPT
  }

  function WorstOutputSize(p: Params): nat {
    p.outputSize + LONGEST_SCRIPT
  }

  ghost predicate ValidPayees(ys: seq<Payment>) {
    forall y :: y in ys ==> y.address.Valid()
  }

  lemma {:induction false} OutputsWithinWorst(p: Params, ys: seq<Payment>)
    requires ValidPayees(ys)
    ensures SumOf(OutputMass(p), Map(OutputFor, ys)) <= |ys| * WorstOutputMass(p)
    ensures SumOf(OutputSize(p), Map(OutputFor, ys)) <= |ys| * WorstOutputSize(p)
    ensures (forall y :: y in ys ==> y.address == FAKE_ADDRESS) ==>
      && SumOf(OutputMass(p), Map(OutputFor, ys)) == |ys| * WorstOutputMass(p)
      && SumOf(OutputSize(p), Map(OutputFor, ys)) == |ys| * WorstOutputSize(p)
  {
    if ys != [] {
      var os := Map(OutputFor, ys);
      assert os[1..] == Map(OutputFor, ys[1..]);
      assert ys[0] in ys && forall y :: y in ys[1..] ==> y in ys;
      OutputsWithinWorst(p, ys[1..]);
      ScriptLengths(ys[0].address);
      OneOutputWithinWorst(p, ys[0]);
      Distribute(|ys| - 1, WorstOutputMass(p));
      Distribute(|ys| - 1, WorstOutputSize(p));
    }
  }

  lemma OneOutputWithinWorst(p: Params, y: Payment)
    requires y.address.Valid()
    ensures OutputMass(p)(OutputFor(y)) <= WorstOutputMass(p)
    ensures OutputSize(p)(OutputFor(y)) <= WorstOutputSize(p)
    ensures y.address == FAKE_ADDRESS ==> OutputMass(p)(OutputFor(y)) == WorstOutputMass(p)
    ensures y.address == FAKE_ADDRESS ==> OutputSize(p)(OutputFor(y)) == WorstOutputSize(p)
  {
    ScriptLengths(y.address);
    TimesMonotone(|PayToAddressScript(y.address).bytes|, LONGEST_SCRIPT, p.scriptByteMass);
  }

  /** The masses of a built transaction with `n` inputs, `outs` worst-case outputs and `len` bytes
      of payload. */
  function WorstMasses(p: Params, n: nat, outs: nat, len: nat): Masses {
    Masses(Affine(p.blankMass + p.payloadByteMass * len, n, PerInput(p), outs, WorstOutputMass(p)),
           Affine(p.blankSize + len, n, PerInputBytes(p), outs, WorstOutputSize(p)) * p.transientFactor)
  }

  function Affine(base: nat, n: nat, perInput: nat, outs: nat, perOutput: nat): nat {
    base + n * perInput + outs * perOutput
  }

  lemma BuiltMasses(p: Params, w: Transfer, ys: seq<Payment>, us: seq<Utxo>, payload: seq<Byte>)
    requires IsBuilt(p, w, ys, us, payload) && ValidPayees(ys)
    ensures
      var actual, worst := NonContextualMasses(p, w.Body()), WorstMasses(p, |us|, |ys|, |payload|);
      && actual.compute <= worst.compute && actual.transient <= worst.transient
      && ((forall y :: y in ys ==> y.address == FAKE_ADDRESS) ==> actual == worst)
  {
    hide PerInput, PerInputBytes, WorstOutputMass, WorstOutputSize, ComputeMass, TransientMass, SumOf, Uniform;
    OutputsWithinWorst(p, ys);
    UniformComputeMass(p, w.Body());
    UniformSize(p, w.Body());
    assert |w.Body().inputs| == |us| && w.Body().outputs == Map(OutputFor, ys);
    hide IsBuilt, OutputSize, OutputMass, OutputFor;
    TimesMonotone(p.blankSize + |payload| + |us| * PerInputBytes(p) + SumOf(OutputSize(p), w.Body().outputs),
                  p.blankSize + |payload| + |us| * PerInputBytes(p) + |ys| * WorstOutputSize(p), p.transientFactor);
  }

  function MockOutputs(us: seq<Utxo>, recipientValue: nat): (n: nat)
    ensures 1 <= n <= 2
  {
    if SumOf(Amount, us) > recipientValue then 2 else 1
  }

  lemma EstimateIsWorst(p: Params, us: seq<Utxo>, recipientValue: nat, payload: seq<Byte>)
    requires EstimateMass(p, us, recipientValue, payload).Ok?
    ensures EstimateMass(p, us, recipientValue, payload).value
      == NormalizedMax(p, WorstMasses(p, |us|, MockOutputs(us, recipientValue), |payload|))
  {
    hide Generated, WorstMasses, NormalizedMax, NonContextualMasses, IsBuilt;
    var ys := MockPayments(us, recipientValue);
    GeneratedShape(p, ys, us, payload);
    assert forall y :: y in ys ==> y.address == FAKE_ADDRESS;
    assert ValidPayees(ys);
    BuiltMasses(p, Generated(p, ys, us, payload).value, ys, us, payload);
  }

  lemma MassesScale(p: Params, n: nat, k: nat, outs: nat, mockOuts: nat, len: nat)
    requires n >= 1 && outs <= n * mockOuts
    ensures
      var big, small := WorstMasses(p, n * k, outs, len), WorstMasses(p, k, mockOuts, len);
      big.compute <= n * small.compute && big.transient <= n * small.transient
  {
    hide PerInput, PerInputBytes, WorstOutputMass, WorstOutputSize, Affine;
    LinearScales(n, p.blankMass + p.payloadByteMass * len, k, PerInput(p), outs, mockOuts, WorstOutputMass(p));
    LinearScales(n, p.blankSize + len, k, PerInputBytes(p), outs, mockOuts, WorstOutputSize(p));
    ScaledBy(Affine(p.blankSize + len, n * k, PerInputBytes(p), outs, WorstOutputSize(p)), n,
             Affine(p.blankSize + len, k, PerInputBytes(p), mockOuts, WorstOutputSize(p)), p.transientFactor);
  }

  lemma ScaledBy(big: nat, n: nat, small: nat, factor: nat)
    requires big <= n * small
    ensures big * factor <= n * (small * factor)
  {
    TimesMonotone(big, n * small, factor);
    assert n * small * factor == n * (small * factor);
  }

  lemma LinearScales(n: nat, base: nat, k: nat, perInput: nat, outs: nat, mockOuts: nat, perOutput: nat)
    requires n >= 1 && outs <= n * mockOuts
    ensures Affine(base, n * k, perInput, outs, perOutput) <= n * Affine(base, k, perInput, mockOuts, perOutput)
  {
    TimesMonotone(1, n, base);
    TimesMonotone(outs, n * mockOuts, perOutput);
    assert n * (base + k * perInput + mockOuts * perOutput)
        == n * base + n * (k * perInput) + n * (mockOuts * perOutput);
    assert n * k * perInput == n * (k * perInput);
    assert n * mockOuts * perOutput == n * (mockOuts * perOutput);
  }

  /** One estimate on `k` coins, charged `n` times, covers a transaction with `n * k` inputs. */
  lemma EstimateCovers(p: Params, w: Transfer, ys: seq<Payment>, us: seq<Utxo>, payload: seq<Byte>,
                       mockCoins: seq<Utxo>, recipientValue: nat, n: nat)
    requires p.Valid() && IsBuilt(p, w, ys, us, payload) && ValidPayees(ys)
    requires EstimateMass(p, mockCoins, recipientValue, payload).Ok?
    requires n >= 1 && |us| == n * |mockCoins| && |ys| <= n * MockOutputs(mockCoins, recipientValue)
    ensures FeeMass(p, w.Body()) <= n * EstimateMass(p, mockCoins, recipientValue, payload).value
  {
    hide IsBuilt, EstimateMass, WorstMasses, NonContextualMasses;
    BuiltMasses(p, w, ys, us, payload);
    EstimateIsWorst(p, mockCoins, recipientValue, payload);
    MassesScale(p, n, |mockCoins|, |ys|, MockOutputs(mockCoins, recipientValue), |payload|);
    NormalizedMaxScales(p, WorstMasses(p, |mockCoins|, MockOutputs(mockCoins, recipientValue), |payload|),
                        NonContextualMasses(p, w.Body()), n);
  }
}
