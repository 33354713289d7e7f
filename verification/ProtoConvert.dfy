/** The wire form of a wallet transaction (common/src/proto_convert.rs): an encoder and a decoder
    that validates. Transaction ids are 32-byte hashes here. The text form of an address belongs to
    an upstream crate and is a parameter. */
module ProtoConvert {
  import opened Wrappers
  import opened Sequences
  import opened Model
  import opened Derivation
  import opened Mass
  import opened Generate
  import Hex

  type Hash = seq<Byte>

  const HASH_SIZE: nat := 32
  const SUBNETWORK_ID_SIZE: nat := 20

  /* ----- messages ----- */

  datatype ProtoScript = ProtoScript(version: U32, scriptPublicKey: string)
  datatype ProtoOutpoint = ProtoOutpoint(transactionId: seq<Byte>, index: U32)
  datatype ProtoInput = ProtoInput(
    previousOutpoint: Option<ProtoOutpoint>, signatureScript: seq<Byte>, sequence: U64, sigOpCount: U32,
    computeBudget: U32)
  datatype ProtoOutput = ProtoOutput(value: U64, script: Option<ProtoScript>)
  datatype ProtoTransaction = ProtoTransaction(
    version: U32, inputs: seq<ProtoInput>, outputs: seq<ProtoOutput>, lockTime: U64, subnetworkId: seq<Byte>, gas: U64,
    payload: seq<Byte>, mass: U64, id: seq<Byte>)
  datatype ProtoEntry = ProtoEntry(amount: U64, script: Option<ProtoScript>, blockDaaScore: U64, isCoinbase: bool)
  datatype ProtoOptionalEntry = ProtoOptionalEntry(entry: Option<ProtoEntry>)
  datatype ProtoMasses = ProtoMasses(compute: U64, transient: U64)
  datatype ProtoSignable = ProtoSignable(
    tx: Option<ProtoTransaction>, entries: seq<ProtoOptionalEntry>, calculatedFee: Option<U64>,
    masses: Option<ProtoMasses>)
  datatype ProtoSigned = ProtoFully(inner: ProtoSignable) | ProtoPartially(inner: ProtoSignable)
  datatype ProtoSignedTransaction = ProtoSignedTransaction(signed: Option<ProtoSigned>)
  datatype ProtoAddress = ProtoAddress(index: U32, cosignerIndex: U32, keychain: int)
  datatype ProtoPath = ProtoPath(path: seq<U32>)
  datatype ProtoWalletTx = ProtoWalletTx(
    transaction: Option<ProtoSignedTransaction>, derivationPaths: seq<ProtoPath>,
    addressByInputIndex: seq<ProtoAddress>, addressByOutputIndex: seq<string>)

  /** What a field not present reads as. */
  const NO_OUTPOINT := ProtoOutpoint([], 0)
  const NO_SCRIPT := ProtoScript(0, "")
  const NO_TRANSACTION := ProtoTransaction(0, [], [], 0, [], 0, [], 0, [])
  const NO_SIGNED := ProtoSignedTransaction(None)

  function OrElse<A>(o: Option<A>, default: A): A {
    match o case Some(a) => a case None => default
  }

  /* ----- machine widths ----- */

  /** The widths of the consensus types' own fields. */
  predicate ScriptFits(s: Script) {
    s.version <= U16_MAX
  }

  predicate InputFits(i: TxInput<Hash>) {
    && i.previousOutpoint.index <= U32_MAX && i.sequence <= U64_MAX
    && match i.commit case SigOpCount(n) => n <= U8_MAX case ComputeBudget(n) => n <= U16_MAX
  }

  predicate OutputFits(o: Output) {
    o.value <= U64_MAX && ScriptFits(o.script)
  }

  predicate EntryFits(e: UtxoEntry) {
    e.amount <= U64_MAX && ScriptFits(e.script) && e.blockDaaScore <= U64_MAX
  }

  predicate OptionalFits(e: Option<UtxoEntry>) {
    e.Some? ==> EntryFits(e.value)
  }

  predicate TxFits(t: Tx<Hash>) {
    && t.version <= U16_MAX && t.lockTime <= U64_MAX && t.gas <= U64_MAX && t.storageMass <= U64_MAX
    && (forall i :: i in t.inputs ==> InputFits(i)) && (forall o :: o in t.outputs ==> OutputFits(o))
  }

  predicate Fits(w: WalletTx<Hash>) {
    && TxFits(w.Body()) && (forall e :: e in w.Entries() ==> OptionalFits(e))
    && (w.transaction.inner.calculatedFee.Some? ==> w.transaction.inner.calculatedFee.value <= U64_MAX)
    && (w.transaction.inner.masses.Some? ==>
          w.transaction.inner.masses.value.compute <= U64_MAX && w.transaction.inner.masses.value.transient <= U64_MAX)
  }

  /* ----- encoding ----- */

  function EncodeScript(s: Script): ProtoScript
    requires ScriptFits(s)
  {
    ProtoScript(s.version, Hex.Encode(s.bytes))
  }

  /** Both mass fields are always sent; the one the version does not use is zero. */
  function EncodeInput(i: TxInput<Hash>): ProtoInput
    requires InputFits(i)
  {
    ProtoInput(Some(ProtoOutpoint(i.previousOutpoint.transactionId, i.previousOutpoint.index)),
               i.signatureScript, i.sequence,
               match i.commit { case SigOpCount(n) => n case ComputeBudget(_) => 0 },
               match i.commit { case SigOpCount(_) => 0 case ComputeBudget(n) => n })
  }

  /** The covenant is dropped. */
  function EncodeOutput(o: Output): ProtoOutput
    requires OutputFits(o)
  {
    ProtoOutput(o.value, Some(EncodeScript(o.script)))
  }

  function EncodeEntry(e: Option<UtxoEntry>): ProtoOptionalEntry
    requires OptionalFits(e)
  {
    match e
    case None => ProtoOptionalEntry(None)
    case Some(x) =>
      ProtoOptionalEntry(Some(ProtoEntry(x.amount, Some(EncodeScript(x.script)), x.blockDaaScore, x.isCoinbase)))
  }

  function EncodeTx(t: Tx<Hash>, idOf: Tx<Hash> -> Hash): ProtoTransaction
    requires TxFits(t)
  {
    ProtoTransaction(
      t.version, seq(|t.inputs|, i requires 0 <= i < |t.inputs| => EncodeInput(t.inputs[i])),
      seq(|t.outputs|, i requires 0 <= i < |t.outputs| => EncodeOutput(t.outputs[i])), t.lockTime, t.subnetworkId,
      t.gas,
      t.payload, t.storageMass, idOf(t))
  }

  function EncodeSignable(w: WalletTx<Hash>, idOf: Tx<Hash> -> Hash): ProtoSignable
    requires Fits(w)
  {
    var s := w.transaction.inner;
    ProtoSignable(
      Some(EncodeTx(s.tx, idOf)), seq(|s.entries|, i requires 0 <= i < |s.entries| => EncodeEntry(s.entries[i])),
      s.calculatedFee,
      match s.masses { case None => None case Some(m) => Some(ProtoMasses(m.compute, m.transient)) })
  }

  function EncodeAddress(a: WalletAddress): ProtoAddress {
    ProtoAddress(a.index, a.cosignerIndex, KeychainNumber(a.keychain))
  }

  function EncodePath(p: DerivationPath): ProtoPath {
    ProtoPath(p)
  }

  function Encode(w: WalletTx<Hash>, idOf: Tx<Hash> -> Hash, show: Address -> string): ProtoWalletTx
    requires Fits(w)
  {
    var inner := EncodeSignable(w, idOf);
    ProtoWalletTx(
      Some(ProtoSignedTransaction(Some(if w.transaction.Fully? then ProtoFully(inner) else ProtoPartially(inner)))),
      Map(EncodePath, w.derivationPaths), Map(EncodeAddress, w.addressByInputIndex), Map(show, w.addressByOutputIndex))
  }

  /* ----- decoding ----- */

  function DecodeScript(p: ProtoScript): Result<Script> {
    if p.version > U16_MAX then Err(InvalidArgument)
    else
      match Hex.Decode(p.scriptPublicKey)
      case None => Err(InvalidArgument)
      case Some(bytes) => Ok(Script(p.version, bytes))
  }

  function DecodeOutpoint(p: ProtoOutpoint): Result<Outpoint<Hash>> {
    if |p.transactionId| == HASH_SIZE then Ok(Outpoint(p.transactionId, p.index)) else Err(InvalidArgument)
  }

  /** The version says which mass field counts; the other one must be zero. */
  function DecodeInput(version: U16): ProtoInput -> Result<TxInput<Hash>> {
    (p: ProtoInput) =>
      match DecodeOutpoint(OrElse(p.previousOutpoint, NO_OUTPOINT))
      case Err(e) => Err(e)
      case Ok(outpoint) =>
        if ExpectsComputeBudget(version) then
          if p.sigOpCount != 0 || p.computeBudget > U16_MAX then Err(InvalidArgument)
          else Ok(TxInput(outpoint, p.signatureScript, p.sequence, ComputeBudget(p.computeBudget)))
        else
          if p.computeBudget != 0 || p.sigOpCount > U8_MAX then Err(InvalidArgument)
          else Ok(TxInput(outpoint, p.signatureScript, p.sequence, SigOpCount(p.sigOpCount)))
  }

  function DecodeOutput(p: ProtoOutput): Result<Output> {
    var script :- DecodeScript(OrElse(p.script, NO_SCRIPT));
    Ok(Output(p.value, script, None))
  }

  function DecodeEntry(p: ProtoOptionalEntry): Result<Option<UtxoEntry>> {
    match p.entry
    case None => Ok(None)
    case Some(e) =>
      var script :- DecodeScript(OrElse(e.script, NO_SCRIPT));
      Ok(Some(UtxoEntry(e.amount, script, e.blockDaaScore, e.isCoinbase, None)))
  }

  /** The id on the wire is not looked at. */
  function DecodeTx(p: ProtoTransaction): Result<Tx<Hash>> {
    var version := p.version;
    :- Need(version <= U16_MAX, InvalidArgument);
    :- Need(|p.subnetworkId| == SUBNETWORK_ID_SIZE, InvalidArgument);
    var inputs :- TryMap(DecodeInput(version), p.inputs);
    var outputs :- TryMap(DecodeOutput, p.outputs);
    Ok(Tx(version, inputs, outputs, p.lockTime, p.subnetworkId, p.gas, p.payload, p.mass))
  }

  function DecodeSignable(p: ProtoSignable): Result<Signable<Hash>> {
    var tx :- DecodeTx(OrElse(p.tx, NO_TRANSACTION));
    var entries :- TryMap(DecodeEntry, p.entries);
    :- Need(|entries| == |tx.inputs|, InvalidArgument);
    :- Need(forall e :: e in entries ==> e.Some?, InvalidArgument);
    Ok(Signable(tx, entries, p.calculatedFee,
                match p.masses { case None => None case Some(m) => Some(Masses(m.compute, m.transient)) }))
  }

  function DecodeSigned(p: ProtoSignedTransaction): Result<Signed<Hash>> {
    match p.signed
    case None => Err(InvalidArgument)
    case Some(ProtoFully(inner)) => var s :- DecodeSignable(inner); Ok(Fully(s))
    case Some(ProtoPartially(inner)) => var s :- DecodeSignable(inner); Ok(Partially(s))
  }

  /** An unknown keychain reads as the external one. */
  function DecodeAddress(p: ProtoAddress): Result<WalletAddress> {
    if p.cosignerIndex > U16_MAX then Err(InvalidArgument)
    else Ok(WalletAddress(p.index, p.cosignerIndex, if p.keychain == 1 then Internal else External))
  }

  function PathOf(p: ProtoPath): DerivationPath {
    p.path
  }

  function Parsed(parse: string -> Option<Address>): string -> Result<Address> {
    (text: string) => match parse(text) case None => Err(InvalidAddress) case Some(a) => Ok(a)
  }

  function Decode(p: ProtoWalletTx, parse: string -> Option<Address>): Result<WalletTx<Hash>> {
    var transaction :- DecodeSigned(OrElse(p.transaction, NO_SIGNED));
    var payees :- TryMap(Parsed(parse), p.addressByOutputIndex);
    var addresses :- TryMap(DecodeAddress, p.addressByInputIndex);
    Ok(WalletTx(transaction, Dedup(Map(PathOf, p.derivationPaths)), addresses, payees))
  }

  /* ----- the loops ----- */

  method DerivationPathFromProto(p: ProtoPath) returns (path: DerivationPath)
    ensures path == PathOf(p)
  {
    path := [];
    for i := 0 to |p.path|
      invariant path == p.path[..i]
    {
      path := path + [p.path[i]];
    }
  }

  /** Keeping each path the first time its text is seen keeps the first of each. */
  method DedupPaths(protoPaths: seq<ProtoPath>) returns (paths: seq<DerivationPath>)
    ensures paths == Dedup(Map(PathOf, protoPaths))
  {
    hide PathText, Dedup, Texts;
    NoneYet();
    var seen: set<string> := {};
    paths := [];
    for i := 0 to |protoPaths|
      invariant paths == Dedup(Map(PathOf, protoPaths[..i])) && seen == Texts(paths)
    {
      var path := DerivationPathFromProto(protoPaths[i]);
      MapPrefix(PathOf, protoPaths, i);
      DedupSnoc(Map(PathOf, protoPaths[..i]), path);
      TextSeenIffPathSeen(paths, path);
      if PathText(path) !in seen {
        seen := seen + {PathText(path)};
        paths := paths + [path];
      }
    }
    assert protoPaths[..|protoPaths|] == protoPaths;
  }

  lemma NoneYet()
    ensures Dedup<DerivationPath>([]) == [] && Texts([]) == {}
  {
  }

  method FromProto(p: ProtoWalletTx, parse: string -> Option<Address>) returns (r: Result<WalletTx<Hash>>)
    ensures r == Decode(p, parse)
  {
    hide Dedup, DecodeSigned;
    var transaction := DecodeSigned(OrElse(p.transaction, NO_SIGNED));
    if transaction.Err? {
      return Err(transaction.error);
    }
    var payees := TryMap(Parsed(parse), p.addressByOutputIndex);
    if payees.Err? {
      return Err(payees.error);
    }
    var paths := DedupPaths(p.derivationPaths);
    var addresses := TryMap(DecodeAddress, p.addressByInputIndex);
    if addresses.Err? {
      return Err(addresses.error);
    }
    r := Ok(WalletTx(transaction.value, paths, addresses.value, payees.value));
  }

  /* ----- what a decoded transaction is ----- */

  ghost predicate InputWellFormed(version: nat, i: TxInput<Hash>) {
    && InputFits(i) && |i.previousOutpoint.transactionId| == HASH_SIZE
    && (i.commit.ComputeBudget? <==> ExpectsComputeBudget(version))
  }

  ghost predicate OutputWellFormed(o: Output) {
    OutputFits(o) && o.covenant.None?
  }

  ghost predicate EntryWellFormed(e: Option<UtxoEntry>) {
    e.Some? && EntryFits(e.value) && e.value.covenantId.None?
  }

  ghost predicate TxWellFormed(t: Tx<Hash>) {
    && TxFits(t) && |t.subnetworkId| == SUBNETWORK_ID_SIZE
    && (forall i :: 0 <= i < |t.inputs| ==> InputWellFormed(t.version, t.inputs[i]))
    && (forall i :: 0 <= i < |t.outputs| ==> OutputWellFormed(t.outputs[i]))
  }

  ghost predicate SignableWellFormed(s: Signable<Hash>) {
    && TxWellFormed(s.tx) && |s.entries| == |s.tx.inputs|
    && forall i :: 0 <= i < |s.entries| ==> EntryWellFormed(s.entries[i])
  }

  /** The mass field that fits the version, no covenants, an entry for every input, no path twice,
      and payees that are real addresses. */
  ghost predicate WellFormed(w: WalletTx<Hash>) {
    && Fits(w) && SignableWellFormed(w.transaction.inner) && NoDup(w.derivationPaths)
    && forall i :: 0 <= i < |w.addressByOutputIndex| ==> w.addressByOutputIndex[i].Valid()
  }

  /** Upstream's address text: what it prints it reads back, and it reads only real addresses. */
  ghost predicate IsAddressText(show: Address -> string, parse: string -> Option<Address>) {
    && (forall a: Address :: a.Valid() ==> parse(show(a)) == Some(a))
    && (forall t :: parse(t).Some? ==> parse(t).value.Valid())
  }

  /* ----- encode, then decode ----- */

  lemma ScriptRoundTrip(s: Script)
    requires ScriptFits(s)
    ensures DecodeScript(EncodeScript(s)) == Ok(s)
  {
    Hex.RoundTrip(s.bytes);
  }

  lemma InputRoundTrip(version: U16, i: TxInput<Hash>)
    requires InputWellFormed(version, i)
    ensures DecodeInput(version)(EncodeInput(i)) == Ok(i)
  {
  }

  lemma OutputRoundTrip(o: Output)
    requires OutputWellFormed(o)
    ensures DecodeOutput(EncodeOutput(o)) == Ok(o)
  {
    ScriptRoundTrip(o.script);
  }

  lemma EntryRoundTrip(e: Option<UtxoEntry>)
    requires EntryWellFormed(e)
    ensures DecodeEntry(EncodeEntry(e)) == Ok(e)
  {
    ScriptRoundTrip(e.value.script);
  }

  lemma TxRoundTrip(t: Tx<Hash>, idOf: Tx<Hash> -> Hash)
    requires TxWellFormed(t)
    ensures DecodeTx(EncodeTx(t, idOf)) == Ok(t)
  {
    var p := EncodeTx(t, idOf);
    forall i | 0 <= i < |t.inputs| ensures DecodeInput(t.version)(p.inputs[i]) == Ok(t.inputs[i]) {
      InputRoundTrip(t.version, t.inputs[i]);
    }
    forall i | 0 <= i < |t.outputs| ensures DecodeOutput(p.outputs[i]) == Ok(t.outputs[i]) {
      OutputRoundTrip(t.outputs[i]);
    }
    TryMapInverts(DecodeInput(t.version), p.inputs, t.inputs);
    TryMapInverts(DecodeOutput, p.outputs, t.outputs);
  }

  lemma SignableRoundTrip(w: WalletTx<Hash>, idOf: Tx<Hash> -> Hash)
    requires Fits(w) && SignableWellFormed(w.transaction.inner)
    ensures DecodeSignable(EncodeSignable(w, idOf)) == Ok(w.transaction.inner)
  {
    hide DecodeTx, EncodeTx, DecodeEntry, EncodeEntry, EntryFits, TxFits, TxWellFormed;
    var s, p := w.transaction.inner, EncodeSignable(w, idOf);
    TxRoundTrip(s.tx, idOf);
    forall i | 0 <= i < |s.entries| ensures DecodeEntry(p.entries[i]) == Ok(s.entries[i]) {
      EntryRoundTrip(s.entries[i]);
    }
    TryMapInverts(DecodeEntry, p.entries, s.entries);
  }

  /** Encoding then decoding a well-formed transaction gives it back. */
  lemma RoundTrip(w: WalletTx<Hash>, idOf: Tx<Hash> -> Hash, show: Address -> string, parse: string -> Option<Address>)
    requires IsAddressText(show, parse) && WellFormed(w)
    ensures Decode(Encode(w, idOf, show), parse) == Ok(w)
  {
    hide EncodeSignable, DecodeSignable, SignableWellFormed, Dedup, NoDup, TxFits;
    var p := Encode(w, idOf, show);
    SignableRoundTrip(w, idOf);
    assert Map(PathOf, p.derivationPaths) == w.derivationPaths;
    DedupOfNoDup(w.derivationPaths);
    TryMapInverts(Parsed(parse), p.addressByOutputIndex, w.addressByOutputIndex);
    TryMapInverts(DecodeAddress, p.addressByInputIndex, w.addressByInputIndex);
  }

  /* ----- decode ----- */

  lemma DecodedTxIsWellFormed(p: ProtoTransaction)
    requires DecodeTx(p).Ok?
    ensures TxWellFormed(DecodeTx(p).value)
  {
    var t := DecodeTx(p).value;
    forall i | 0 <= i < |t.inputs| ensures InputWellFormed(t.version, t.inputs[i]) {
      assert DecodeInput(p.version)(p.inputs[i]) == Ok(t.inputs[i]);
    }
    forall i | 0 <= i < |t.outputs| ensures OutputWellFormed(t.outputs[i]) {
      assert DecodeOutput(p.outputs[i]) == Ok(t.outputs[i]);
    }
  }

  lemma DecodedSignableIsWellFormed(p: ProtoSignable)
    requires DecodeSignable(p).Ok?
    ensures SignableWellFormed(DecodeSignable(p).value)
  {
    hide DecodeTx, TxWellFormed, DecodeScript;
    var s := DecodeSignable(p).value;
    DecodedTxIsWellFormed(OrElse(p.tx, NO_TRANSACTION));
    forall i | 0 <= i < |s.entries| ensures EntryWellFormed(s.entries[i]) {
      DecodedEntryIsWellFormed(p.entries[i]);
      assert s.entries[i] in s.entries;
    }
  }

  lemma DecodedEntryIsWellFormed(p: ProtoOptionalEntry)
    requires DecodeEntry(p).Ok? && DecodeEntry(p).value.Some?
    ensures EntryWellFormed(DecodeEntry(p).value)
  {
  }

  /** Whatever is accepted is well formed, with one entry for each input and each path once, in the
      order of first occurrence. */
  lemma DecodedIsWellFormed(p: ProtoWalletTx, show: Address -> string, parse: string -> Option<Address>)
    requires IsAddressText(show, parse) && Decode(p, parse).Ok?
    ensures
      var w := Decode(p, parse).value;
      && WellFormed(w)
      && |w.Entries()| == |w.Body().inputs|
      && w.derivationPaths == Dedup(Map(PathOf, p.derivationPaths))
  {
    hide DecodeSignable, Dedup, NoDup, SignableWellFormed, DecodeAddress;
    var w := Decode(p, parse).value;
    var inner := OrElse(p.transaction, NO_SIGNED).signed.value.inner;
    DecodedSignableIsWellFormed(inner);
    DecodedFits(w, inner);
    DedupNoDup(Map(PathOf, p.derivationPaths));
    forall i | 0 <= i < |w.addressByOutputIndex| ensures w.addressByOutputIndex[i].Valid() {
      assert Parsed(parse)(p.addressByOutputIndex[i]) == Ok(w.addressByOutputIndex[i]);
    }
  }

  lemma DecodedFits(w: WalletTx<Hash>, inner: ProtoSignable)
    requires DecodeSignable(inner) == Ok(w.transaction.inner) && SignableWellFormed(w.transaction.inner)
    ensures Fits(w) && |w.Entries()| == |w.Body().inputs|
  {
    hide DecodeTx, DecodeEntry;
    forall e | e in w.Entries() ensures OptionalFits(e) {
      var i :| 0 <= i < |w.Entries()| && w.Entries()[i] == e;
      assert EntryWellFormed(w.Entries()[i]);
    }
  }

  /** The transactions that survive the wire are exactly the well-formed ones. */
  lemma SurvivesIffWellFormed(w: WalletTx<Hash>, idOf: Tx<Hash> -> Hash, show: Address -> string,
                              parse: string -> Option<Address>)
    requires IsAddressText(show, parse) && Fits(w)
    ensures Decode(Encode(w, idOf, show), parse) == Ok(w) <==> WellFormed(w)
  {
    hide Decode, Encode, WellFormed, Fits, IsAddressText;
    if WellFormed(w) {
      RoundTrip(w, idOf, show, parse);
    }
    if Decode(Encode(w, idOf, show), parse) == Ok(w) {
      DecodedIsWellFormed(Encode(w, idOf, show), show, parse);
    }
  }

  /** What one decoding lost or repaired, a second trip does not change. */
  lemma DecodeEncodeDecode(p: ProtoWalletTx, idOf: Tx<Hash> -> Hash, show: Address -> string,
                           parse: string -> Option<Address>)
    requires IsAddressText(show, parse) && Decode(p, parse).Ok?
    ensures Fits(Decode(p, parse).value)
    ensures Decode(Encode(Decode(p, parse).value, idOf, show), parse) == Decode(p, parse)
  {
    DecodedIsWellFormed(p, show, parse);
    hide Decode, Encode, Fits;
    RoundTrip(Decode(p, parse).value, idOf, show, parse);
  }
}
