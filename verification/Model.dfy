/** The values the wallet passes around (common/src/model.rs and the consensus types it wraps).
    Transactions are generic in how a transaction id is represented: the money path uses
    content-addressed ids (`TxId`), the wire codec 32-byte hashes. */
module Model {
  import opened Wrappers
  import opened Sequences

  const U64_MAX: nat := 0xFFFF_FFFF_FFFF_FFFF
  const U32_MAX: nat := 0xFFFF_FFFF
  const U16_MAX: nat := 0xFFFF
  const U8_MAX: nat := 0xFF
  const SOMPI_PER_KASPA: nat := 100_000_000
  const MIN_CHANGE_TARGET: nat := SOMPI_PER_KASPA * 10
  const MAXIMUM_STANDARD_TRANSACTION_MASS: nat := 100_000
  const GRAMS_PER_COMPUTE_BUDGET_UNIT: nat := 100
  const UNACCEPTED_DAA_SCORE: nat := U64_MAX
  // Child numbers from here on are hardened, so no unhardened path can hold them.
  const HARDENED: nat := 0x8000_0000

  type Byte = b: nat | b < 256
  type U16 = n: nat | n <= U16_MAX
  type U32 = n: nat | n <= U32_MAX
  type U64 = n: nat | n <= U64_MAX

  /* ----- addresses and scripts ----- */

  datatype Keychain = External | Internal

  datatype WalletAddress = WalletAddress(index: U32, cosignerIndex: U16, keychain: Keychain)

  datatype AddressVersion = PubKey | PubKeyEcdsa | ScriptHash

  datatype Address = Address(version: AddressVersion, payload: seq<Byte>) {
    /** What upstream's address constructor insists on. */
    predicate Valid() {
      |payload| == if version == PubKeyEcdsa then 33 else 32
    }
  }

  type DerivationPath = seq<U32>

  datatype Script = Script(version: nat, bytes: seq<Byte>)

  function PayToAddressScript(a: Address): Script {
    match a.version
    case PubKey => Script(0, [0x20] + a.payload + [0xac])
    case PubKeyEcdsa => Script(0, [0x21] + a.payload + [0xab])
    case ScriptHash => Script(0, [0xaa, 0x20] + a.payload + [0x87])
  }

  /** Pay to public key: 32 or 33 (the key's length), the key, and the opcode that checks a Schnorr or an
      ECDSA signature. Pay to script hash: hash, 32, the hash, equal. */
  lemma ScriptsAre(a: Address)
    requires a.Valid()
    ensures
      var s, n := PayToAddressScript(a).bytes, |a.payload|;
      && PayToAddressScript(a).version == 0
      && (a.version == PubKey ==> |s| == 34 && s[0] == 32 == n && s[1..33] == a.payload && s[33] == 172)
      && (a.version == PubKeyEcdsa ==> |s| == 35 && s[0] == 33 == n && s[1..34] == a.payload && s[34] == 171)
      && (a.version == ScriptHash ==>
            |s| == 35 && s[0] == 170 && s[1] == 32 == n && s[2..34] == a.payload && s[34] == 135)
  {
  }

  /* ----- transactions ----- */

  datatype Outpoint<+Id> = Outpoint(transactionId: Id, index: nat)

  datatype ComputeCommit = SigOpCount(count: nat) | ComputeBudget(budget: nat)

  datatype TxInput<+Id> = TxInput(
    previousOutpoint: Outpoint<Id>, signatureScript: seq<Byte>, sequence: nat, commit: ComputeCommit)

  datatype Output = Output(value: nat, script: Script, covenant: Option<seq<Byte>>)

  datatype Tx<+Id> = Tx(
    version: nat, inputs: seq<TxInput<Id>>, outputs: seq<Output>, lockTime: nat,
    subnetworkId: seq<Byte>, gas: nat, payload: seq<Byte>, storageMass: nat)

  datatype UtxoEntry = UtxoEntry(
    amount: nat, script: Script, blockDaaScore: nat, isCoinbase: bool, covenantId: Option<seq<Byte>>)

  datatype Masses = Masses(compute: nat, transient: nat)

  datatype Signable<+Id> = Signable(
    tx: Tx<Id>, entries: seq<Option<UtxoEntry>>, calculatedFee: Option<nat>, masses: Option<Masses>)

  datatype Signed<+Id> = Fully(inner: Signable<Id>) | Partially(inner: Signable<Id>)

  datatype WalletTx<+Id> = WalletTx(
    transaction: Signed<Id>, derivationPaths: seq<DerivationPath>,
    addressByInputIndex: seq<WalletAddress>, addressByOutputIndex: seq<Address>)
  {
    function Body(): Tx<Id> {
      transaction.inner.tx
    }

    function Entries(): seq<Option<UtxoEntry>> {
      transaction.inner.entries
    }
  }

  datatype WalletUtxoEntry = WalletUtxoEntry(
    amount: nat, script: Script, blockDaaScore: nat, isCoinbase: bool, isUnconfirmed: bool)

  datatype WalletUtxo<+Id> = WalletUtxo(outpoint: Outpoint<Id>, entry: WalletUtxoEntry, address: WalletAddress)

  datatype Payment = Payment(address: Address, amount: nat)

  /* ----- content-addressed ids ----- */

  /** A transaction id is a collision-free hash of the transaction's content without its
      signature scripts. `BuiltTx` is that hash as a free constructor; `NodeTx` names a
      transaction whose content the wallet does not know. */
  datatype TxId = NodeTx(hash: nat) | BuiltTx(spends: seq<Coin>, outputs: seq<Output>, payload: seq<Byte>)

  type Coin = Outpoint<TxId>
  type Utxo = WalletUtxo<TxId>
  type Transfer = WalletTx<TxId>

  function PreviousOutpoint<Id>(i: TxInput<Id>): Outpoint<Id> {
    i.previousOutpoint
  }

  function Spends<Id>(tx: Tx<Id>): (r: seq<Outpoint<Id>>)
    ensures |r| == |tx.inputs|
    ensures forall i :: 0 <= i < |r| ==> r[i] == tx.inputs[i].previousOutpoint
  {
    Map(PreviousOutpoint, tx.inputs)
  }

  function IdOf(tx: Tx<TxId>): TxId {
    BuiltTx(Spends(tx), tx.outputs, tx.payload)
  }

  /* ----- amounts ----- */

  function Amount<Id>(u: WalletUtxo<Id>): nat {
    u.entry.amount
  }

  function Value(o: Output): nat {
    o.value
  }

  function EntryAmount(e: Option<UtxoEntry>): nat {
    match e
    case None => 0
    case Some(entry) => entry.amount
  }

  function TotalIn<Id>(w: WalletTx<Id>): nat {
    SumOf(EntryAmount, w.Entries())
  }

  function TotalOut<Id>(w: WalletTx<Id>): nat {
    SumOf(Value, w.Body().outputs)
  }

  /** What a transaction leaves to the miner: negative when it would create money. */
  function Fee<Id>(w: WalletTx<Id>): int {
    TotalIn(w) - TotalOut(w)
  }

  function UtxoOutpoint<Id>(u: WalletUtxo<Id>): Outpoint<Id> {
    u.outpoint
  }

  function Outpoints(us: seq<Utxo>): seq<Coin> {
    Map(UtxoOutpoint, us)
  }

  lemma OutpointListed(us: seq<Utxo>, u: Utxo)
    requires u in us
    ensures u.outpoint in Outpoints(us)
  {
    var i :| 0 <= i < |us| && us[i] == u;
    assert Outpoints(us)[i] == u.outpoint;
  }

  lemma NothingRepeats()
    ensures NoDup(Outpoints([]))
  {
  }

  ghost predicate Ascending(us: seq<Utxo>) {
    forall i, j :: 0 <= i < j < |us| ==> Amount(us[i]) <= Amount(us[j])
  }

  /** `WalletUtxoEntry` -> consensus entry: the unconfirmed hint is dropped. */
  function ToUtxoEntry(e: WalletUtxoEntry): UtxoEntry {
    UtxoEntry(e.amount, e.script, e.blockDaaScore, e.isCoinbase, None)
  }

  /** Consensus entry -> `WalletUtxoEntry`: always confirmed. */
  function FromUtxoEntry(e: UtxoEntry): WalletUtxoEntry {
    WalletUtxoEntry(e.amount, e.script, e.blockDaaScore, e.isCoinbase, false)
  }
}
