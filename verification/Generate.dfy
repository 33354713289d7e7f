/** Building one unsigned transaction, and the fee estimate that builds a mock of it
    (daemon/src/transaction_generator.rs). */
module Generate {
  import opened Wrappers
  import opened Sequences
  import opened Model
  import opened Derivation
  import opened Mass

  function NewInput(p: Params, c: Coin): TxInput<TxId> {
    TxInput(c, [], 0, InputCommit(p))
  }

  function InputFor(p: Params): Utxo -> TxInput<TxId> {
    (u: Utxo) => NewInput(p, u.outpoint)
  }

  function EntryFor(u: Utxo): Option<UtxoEntry> {
    Some(ToUtxoEntry(u.entry))
  }

  function AddressFor(u: Utxo): WalletAddress {
    u.address
  }

  function OutputFor(y: Payment): Output {
    Output(y.amount, PayToAddressScript(y.address), None)
  }

  function PayeeOf(y: Payment): Address {
    y.address
  }

  function PathsOf(p: Params, us: seq<Utxo>): (r: Result<seq<DerivationPath>>)
    ensures r.Err? ==> r.error == Bip32Derivation
    ensures r.Ok? ==> |r.value| == |us|
    ensures r.Ok? ==> forall i :: 0 <= i < |us| ==>
      CalculateAddressPath(p.isMultisig, us[i].address) == Ok(r.value[i])
  {
    if us == [] then Ok([])
    else
      var paths :- PathsOf(p, us[..|us| - 1]);
      var path :- CalculateAddressPath(p.isMultisig, us[|us| - 1].address);
      Ok(paths + [path])
  }

  function BuiltBody(p: Params, payments: seq<Payment>, us: seq<Utxo>, payload: seq<Byte>): Body {
    Tx(p.version, Map(InputFor(p), us), Map(OutputFor, payments), 0, p.subnetworkId, 0, payload, 0)
  }

  function Assemble(p: Params, payments: seq<Payment>, us: seq<Utxo>, payload: seq<Byte>,
                    paths: seq<DerivationPath>): Transfer
  {
    var body := BuiltBody(p, payments, us, payload);
    WalletTx(
      Partially(Signable(body, Map(EntryFor, us), None, Some(NonContextualMasses(p, body)))),
      paths, Map(AddressFor, us), Map(PayeeOf, payments))
  }

  function Generated(p: Params, payments: seq<Payment>, us: seq<Utxo>, payload: seq<Byte>): (r: Result<Transfer>)
    ensures r.Err? ==> r.error == Bip32Derivation
  {
    var paths :- PathsOf(p, us);
    Ok(Assemble(p, payments, us, payload, Dedup(paths)))
  }

  method GenerateUnsignedTransaction(p: Params, payments: seq<Payment>, us: seq<Utxo>, payload: seq<Byte>)
    returns (r: Result<Transfer>)
    ensures r == Generated(p, payments, us, payload)
  {
    hide CalculateAddressPath, PathText, Dedup, Texts, PathsOf, PayToAddressScript, NonContextualMasses, InputCommit;
    NoPaths(p, us);
    var inputs, entries, derivationPaths, addressByInputIndex := [], [], [], [];
    var seenPaths: set<string> := {};
    ghost var paths: seq<DerivationPath> := [];
    for i := 0 to |us|
      invariant inputs == Map(InputFor(p), us[..i])
      invariant entries == Map(EntryFor, us[..i])
      invariant addressByInputIndex == Map(AddressFor, us[..i])
      invariant PathsOf(p, us[..i]) == Ok(paths)
      invariant derivationPaths == Dedup(paths)
      invariant seenPaths == Texts(derivationPaths)
    {
      MapPrefix(InputFor(p), us, i);
      MapPrefix(EntryFor, us, i);
      MapPrefix(AddressFor, us, i);
      PathsOfStep(p, us, i);
      inputs := inputs + [NewInput(p, us[i].outpoint)];
      entries := entries + [Some(ToUtxoEntry(us[i].entry))];
      addressByInputIndex := addressByInputIndex + [us[i].address];
      var path := CalculateAddressPath(p.isMultisig, us[i].address);
      if path.Err? {
        PathsOfPrefix(p, us, i + 1);
        return Err(path.error);
      }
      TextSeenIffPathSeen(derivationPaths, path.value);
      DedupSnoc(paths, path.value);
      paths := paths + [path.value];
      if PathText(path.value) !in seenPaths {
        seenPaths := seenPaths + {PathText(path.value)};
        derivationPaths := derivationPaths + [path.value];
      }
    }
    assert us[..|us|] == us;
    var outputs, addressByOutputIndex := [], [];
    for i := 0 to |payments|
      invariant outputs == Map(OutputFor, payments[..i])
      invariant addressByOutputIndex == Map(PayeeOf, payments[..i])
    {
      MapPrefix(OutputFor, payments, i);
      MapPrefix(PayeeOf, payments, i);
      outputs := outputs + [Output(payments[i].amount, PayToAddressScript(payments[i].address), None)];
      addressByOutputIndex := addressByOutputIndex + [payments[i].address];
    }
    assert payments[..|payments|] == payments;
    var body := Tx(p.version, inputs, outputs, 0, p.subnetworkId, 0, payload, 0);
    r := Ok(WalletTx(Partially(Signable(body, entries, None, Some(NonContextualMasses(p, body)))),
                     derivationPaths, addressByInputIndex, addressByOutputIndex));
  }

  lemma NoPaths(p: Params, us: seq<Utxo>)
    ensures PathsOf(p, us[..0]) == Ok([]) && Dedup<DerivationPath>([]) == [] && Texts([]) == {}
  {
  }

  lemma PathsOfStep(p: Params, us: seq<Utxo>, i: nat)
    requires i < |us| && PathsOf(p, us[..i]).Ok?
    ensures
      var path := CalculateAddressPath(p.isMultisig, us[i].address);
      PathsOf(p, us[..i + 1]) == if path.Ok? then Ok(PathsOf(p, us[..i]).value + [path.value]) else Err(path.error)
  {
    assert us[..i + 1][..i] == us[..i];
  }

  lemma DedupSnoc(paths: seq<DerivationPath>, q: DerivationPath)
    ensures Dedup(paths + [q]) == if q in Dedup(paths) then Dedup(paths) else Dedup(paths) + [q]
  {
    assert (paths + [q])[..|paths|] == paths;
  }

  function Texts(paths: seq<DerivationPath>): set<string> {
    set q | q in paths :: PathText(q)
  }

  lemma TextSeenIffPathSeen(paths: seq<DerivationPath>, q: DerivationPath)
    ensures PathText(q) in Texts(paths) <==> q in paths
    ensures Texts(paths + [q]) == Texts(paths) + {PathText(q)}
  {
    if PathText(q) in Texts(paths) {
      var x :| x in paths && PathText(x) == PathText(q);
      PathTextInjective(x, q);
    }
    assert q in paths + [q];
  }

  /** A coin whose path cannot be built fails the whole transaction, with the one path error. */
  lemma {:induction false} PathsOfPrefix(p: Params, us: seq<Utxo>, k: nat)
    requires k <= |us| && PathsOf(p, us[..k]) == Err(Bip32Derivation)
    ensures PathsOf(p, us) == Err(Bip32Derivation)
  {
    if k == |us| {
      assert us[..k] == us;
    } else {
      assert us[..|us| - 1][..k] == us[..k];
      PathsOfPrefix(p, us[..|us| - 1], k);
    }
  }

  /** Coins whose addresses lie below the hardened ones, so that their paths can be written down. */
  ghost predicate Derivable(us: seq<Utxo>) {
    forall u :: u in us ==> u.address.index < HARDENED
  }

  lemma {:induction false} PathsExistIff(p: Params, us: seq<Utxo>)
    ensures PathsOf(p, us).Ok? <==> Derivable(us)
  {
    if us != [] {
      PathsExistIff(p, us[..|us| - 1]);
      assert us[|us| - 1] in us;
      assert forall u :: u in us ==> u in us[..|us| - 1] || u == us[|us| - 1];
    }
  }

  /** A transaction can be built of exactly such coins. */
  lemma BuildsIff(p: Params, payments: seq<Payment>, us: seq<Utxo>, payload: seq<Byte>)
    ensures Generated(p, payments, us, payload).Ok? <==> Derivable(us)
  {
    hide Assemble, PathsOf, Derivable;
    PathsExistIff(p, us);
  }

  /* ----- what a generated transaction says ----- */

  ghost predicate IsBuilt(p: Params, w: Transfer, payments: seq<Payment>, us: seq<Utxo>, payload: seq<Byte>) {
    && Uniform(p, w.Body()) && w.Body().payload == payload
    && Spends(w.Body()) == Map(UtxoOutpoint, us)
    && |w.Entries()| == |us| == |w.Body().inputs| == |w.addressByInputIndex|
    && (forall i :: 0 <= i < |us| ==> w.Entries()[i].Some? && EntryAmount(w.Entries()[i]) == Amount(us[i]))
    && w.Body().outputs == Map(OutputFor, payments)
    && w.addressByOutputIndex == Map(PayeeOf, payments)
    && TotalIn(w) == SumOf(Amount, us)
  }

  lemma GeneratedShape(p: Params, payments: seq<Payment>, us: seq<Utxo>, payload: seq<Byte>)
    requires Generated(p, payments, us, payload).Ok?
    ensures IsBuilt(p, Generated(p, payments, us, payload).value, payments, us, payload)
  {
    var w := Generated(p, payments, us, payload).value;
    SumOfEqual(EntryAmount, w.Entries(), Amount, us);
    assert Spends(w.Body()) == Map(UtxoOutpoint, us);
  }

  /** The rest of it: no lock time, no gas, nothing signed yet, no storage mass or fee on record, and its
      two masses noted; each entry is the coin spent, and each output pays its payee's script. */
  lemma GeneratedRest(p: Params, payments: seq<Payment>, us: seq<Utxo>, payload: seq<Byte>, i: nat)
    requires Generated(p, payments, us, payload).Ok?
    ensures
      var w := Generated(p, payments, us, payload).value;
      var t := w.Body();
      && w.transaction.Partially? && w.transaction.inner.calculatedFee == None
      && w.transaction.inner.masses == Some(Masses(ComputeMass(p, t), TransientMass(p, t)))
      && t.version == p.version && t.subnetworkId == p.subnetworkId
      && t.lockTime == 0 && t.gas == 0 && t.storageMass == 0
      && (i < |us| ==>
            && t.inputs[i].signatureScript == [] && t.inputs[i].sequence == 0
            && t.inputs[i].commit == (if p.version == 0 then SigOpCount(p.minimumSignatures)
                                      else ComputeBudget(p.computeBudgetPerInput))
            && w.Entries()[i] == Some(UtxoEntry(us[i].entry.amount, us[i].entry.script, us[i].entry.blockDaaScore,
                                                us[i].entry.isCoinbase, None))
            && w.addressByInputIndex[i] == us[i].address)
      && (i < |payments| ==>
            t.outputs[i] == Output(payments[i].amount, PayToAddressScript(payments[i].address), None))
  {
    hide ComputeMass, TransientMass, PayToAddressScript, Dedup, PathsOf;
  }

  /** The paths a transaction carries are exactly those of its inputs, each once. */
  lemma GeneratedPathsCoverInputs(p: Params, payments: seq<Payment>, us: seq<Utxo>, payload: seq<Byte>)
    requires Generated(p, payments, us, payload).Ok?
    ensures
      var w := Generated(p, payments, us, payload).value;
      && NoDup(w.derivationPaths)
      && (forall i :: 0 <= i < |us| ==>
            exists q :: q in w.derivationPaths && CalculateAddressPath(p.isMultisig, w.addressByInputIndex[i]) == Ok(q))
      && (forall q :: q in w.derivationPaths ==>
            exists i :: 0 <= i < |us| && CalculateAddressPath(p.isMultisig, w.addressByInputIndex[i]) == Ok(q))
  {
    var w, paths := Generated(p, payments, us, payload).value, PathsOf(p, us).value;
    DedupNoDup(paths);
    forall i | 0 <= i < |us|
      ensures exists q ::
        q in w.derivationPaths && CalculateAddressPath(p.isMultisig, w.addressByInputIndex[i]) == Ok(q)
    {
      assert paths[i] in w.derivationPaths;
    }
    forall q | q in w.derivationPaths
      ensures exists i :: 0 <= i < |us| && CalculateAddressPath(p.isMultisig, w.addressByInputIndex[i]) == Ok(q)
    {
      var i :| 0 <= i < |paths| && paths[i] == q;
    }
  }

  /* ----- fee estimate ----- */

  const FAKE_ADDRESS := Address(PubKeyEcdsa, seq(33, _ => 0))

  function MockPayments(us: seq<Utxo>, recipientValue: nat): seq<Payment> {
    var total := SumOf(Amount, us);
    if total > recipientValue
    then [Payment(FAKE_ADDRESS, recipientValue), Payment(FAKE_ADDRESS, total - recipientValue)]
    else [Payment(FAKE_ADDRESS, total)]
  }

  function EstimateMass(p: Params, us: seq<Utxo>, recipientValue: nat, payload: seq<Byte>): (r: Result<nat>)
    ensures r.Err? ==> r.error == Bip32Derivation
  {
    var mock :- Generated(p, MockPayments(us, recipientValue), us, payload);
    Ok(FeeMass(p, mock.Body()))
  }

  function EstimateFee(p: Params, us: seq<Utxo>, rate: real, maxFee: U64, recipientValue: nat,
                       payload: seq<Byte>): (r: Result<U64>)
    ensures r.Err? ==> r.error == Bip32Derivation
  {
    var mass :- EstimateMass(p, us, recipientValue, payload);
    Ok(FeeAt(mass, rate, maxFee))
  }

  /** The daemon's local guess of one more input's mass, used only when a merge takes more coins. */
  function MassPerInputGuess(p: Params, i: TxInput<TxId>): nat {
    64 + p.signatureMassPerInput
    + match i.commit
      case SigOpCount(n) => n * p.massPerSigOp
      case ComputeBudget(b) => b * GRAMS_PER_COMPUTE_BUDGET_UNIT
  }
}
