/** Transaction mass and the fee it calls for (daemon/src/transaction_generator.rs). Upstream's
    mass calculators are affine in inputs, output script bytes and payload; their coefficients
    are the fields of `Params`. */
module Mass {
  import opened Arithmetic
  import opened Sequences
  import opened Model

  datatype Params = Params(
    version: nat, subnetworkId: seq<Byte>, computeBudgetPerInput: nat, minimumSignatures: nat,
    massPerSigOp: nat, signatureMassPerInput: nat, isMultisig: bool, coinbaseMaturity: nat,
    // upstream compute mass
    blankMass: nat, inputMass: nat, outputMass: nat, scriptByteMass: nat, payloadByteMass: nat,
    // upstream serialized size
    blankSize: nat, inputSize: nat, outputSize: nat, signatureSize: nat, transientFactor: nat,
    transientCofactor: real)
  {
    /** Every input weighs something, and the cofactor is a ratio of block limits. */
    predicate Valid() {
      inputMass > 0 && transientCofactor >= 0.0
    }
  }

  type Body = Tx<TxId>

  function ExpectsComputeBudget(version: nat): bool {
    version >= 1
  }

  function InputCommit(p: Params): ComputeCommit {
    if ExpectsComputeBudget(p.version) then ComputeBudget(p.computeBudgetPerInput)
    else SigOpCount(p.minimumSignatures)
  }

  /* ----- compute mass ----- */

  function UpstreamInputMass(p: Params): TxInput<TxId> -> nat {
    (i: TxInput<TxId>) => p.inputMass + p.payloadByteMass * |i.signatureScript| + p.signatureMassPerInput
      + match i.commit { case SigOpCount(n) => n * p.massPerSigOp case ComputeBudget(_) => 0 }
  }

  function BudgetMass(i: TxInput<TxId>): nat {
    match i.commit
    case SigOpCount(_) => 0
    case ComputeBudget(b) => b * GRAMS_PER_COMPUTE_BUDGET_UNIT
  }

  function OutputMass(p: Params): Output -> nat {
    (o: Output) => p.outputMass + p.scriptByteMass * |o.script.bytes|
  }

  function UpstreamMass(p: Params, tx: Body): nat {
    p.blankMass + p.payloadByteMass * |tx.payload|
    + SumOf(UpstreamInputMass(p), tx.inputs) + SumOf(OutputMass(p), tx.outputs)
  }

  /** Upstream ignores a v1 input's compute budget; the daemon adds it back. */
  function ComputeMass(p: Params, tx: Body): nat {
    if ExpectsComputeBudget(tx.version) then UpstreamMass(p, tx) + SumOf(BudgetMass, tx.inputs)
    else UpstreamMass(p, tx)
  }

  /* ----- transient mass ----- */

  function OutputSize(p: Params): Output -> nat {
    (o: Output) => p.outputSize + |o.script.bytes|
  }

  function InputSize(p: Params): TxInput<TxId> -> nat {
    (i: TxInput<TxId>) => p.inputSize + |i.signatureScript|
  }

  function SerializedSize(p: Params, tx: Body): nat {
    p.blankSize + |tx.payload| + SumOf(InputSize(p), tx.inputs) + SumOf(OutputSize(p), tx.outputs)
  }

  /** Signatures are not there yet, so room for them is added before scaling. */
  function TransientMass(p: Params, tx: Body): nat {
    (SerializedSize(p, tx) + p.signatureSize * Max(p.minimumSignatures, 1) * |tx.inputs|) * p.transientFactor
  }

  /* ----- fees ----- */

  function Ceil(x: real): int {
    -((-x).Floor)
  }

  function AsU64(x: real): U64 {
    var c := Ceil(x);
    if c < 0 then 0 else if c > U64_MAX then U64_MAX else c
  }

  function NonContextualMasses(p: Params, tx: Body): Masses {
    Masses(ComputeMass(p, tx), TransientMass(p, tx))
  }

  /** The larger of compute mass and transient mass scaled to it: the node's relay-fee floor. */
  function NormalizedMax(p: Params, m: Masses): (r: nat)
    ensures r >= m.compute && r as real >= m.transient as real * p.transientCofactor
  {
    var transient := Ceil(m.transient as real * p.transientCofactor);
    if m.compute < transient then transient else m.compute
  }

  function FeeMass(p: Params, tx: Body): nat {
    NormalizedMax(p, NonContextualMasses(p, tx))
  }

  function FeeAt(mass: nat, rate: real, maxFee: U64): U64 {
    Min(AsU64(mass as real * rate), maxFee)
  }

  lemma CeilBounds(x: real)
    ensures Ceil(x) as real - 1.0 < x <= Ceil(x) as real
  {
  }

  /* ----- transactions the generator builds are uniform ----- */

  lemma {:induction false} SumOfUniform<A>(f: A -> nat, s: seq<A>, v: nat)
    requires forall a :: a in s ==> f(a) == v
    ensures SumOf(f, s) == |s| * v
  {
    if s != [] {
      SumOfUniform(f, s[1..], v);
    }
  }

  /** The shape every input of this wallet has. */
  predicate Uniform(p: Params, tx: Body) {
    && tx.version == p.version && tx.subnetworkId == p.subnetworkId
    && forall i :: i in tx.inputs ==> i.signatureScript == [] && i.commit == InputCommit(p)
  }

  function PerInput(p: Params): nat {
    p.inputMass + p.signatureMassPerInput
    + if ExpectsComputeBudget(p.version) then p.computeBudgetPerInput * GRAMS_PER_COMPUTE_BUDGET_UNIT
      else p.minimumSignatures * p.massPerSigOp
  }

  function PerInputBytes(p: Params): nat {
    p.inputSize + p.signatureSize * Max(p.minimumSignatures, 1)
  }

  lemma TimesPlus(n: nat, m: nat, b: nat)
    ensures n * (m + b) == n * m + n * b
  {
  }

  lemma UniformComputeMass(p: Params, tx: Body)
    requires Uniform(p, tx)
    ensures ComputeMass(p, tx) == p.blankMass + p.payloadByteMass * |tx.payload|
      + |tx.inputs| * PerInput(p) + SumOf(OutputMass(p), tx.outputs)
  {
    hide SumOf;
    if ExpectsComputeBudget(p.version) {
      var b := p.computeBudgetPerInput * GRAMS_PER_COMPUTE_BUDGET_UNIT;
      var m := p.inputMass + p.signatureMassPerInput;
      SumOfUniform(UpstreamInputMass(p), tx.inputs, m);
      SumOfUniform(BudgetMass, tx.inputs, b);
      TimesPlus(|tx.inputs|, m, b);
    } else {
      SumOfUniform(UpstreamInputMass(p), tx.inputs, PerInput(p));
    }
  }

  /** What an input weighs: in version 0 its signature operations count, in later versions 100 grams for
      each unit of its compute budget. */
  lemma PerInputIs(p: Params)
    ensures PerInput(p) == p.inputMass + p.signatureMassPerInput
      + if p.version == 0 then p.minimumSignatures * p.massPerSigOp else 100 * p.computeBudgetPerInput
  {
  }

  lemma UniformSize(p: Params, tx: Body)
    requires Uniform(p, tx)
    ensures TransientMass(p, tx) == (p.blankSize + |tx.payload|
      + |tx.inputs| * PerInputBytes(p) + SumOf(OutputSize(p), tx.outputs)) * p.transientFactor
  {
    var n, signatures := |tx.inputs|, p.signatureSize * Max(p.minimumSignatures, 1);
    SumOfUniform(InputSize(p), tx.inputs, p.inputSize);
    assert n * (p.inputSize + signatures) == n * p.inputSize + signatures * n;
    var a := SerializedSize(p, tx) + signatures * n;
    var b := p.blankSize + |tx.payload| + n * PerInputBytes(p) + SumOf(OutputSize(p), tx.outputs);
    assert a == b;
  }
}
