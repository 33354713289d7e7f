/** What a message of the wire format says, field by field; and that decoding and encoding both keep
    to it. */
module WireMeaning {
  import opened Wrappers
  import opened Sequences
  import opened Model
  import opened ProtoConvert
  import Hex

  /* ----- what the parts of a message say ----- */

  /** Two digits a byte, the high one first. */
  ghost predicate HexSays(text: string, bytes: seq<Byte>) {
    |text| == 2 * |bytes| && forall k :: 0 <= k < |bytes| ==> ByteSays(text, bytes, k)
  }

  ghost predicate ByteSays(text: string, bytes: seq<Byte>, k: int) {
    && 0 <= k < |bytes| && |text| == 2 * |bytes|
    && Hex.Value(text[2 * k]).Some? && Hex.Value(text[2 * k + 1]).Some?
    && bytes[k] == 16 * Hex.Value(text[2 * k]).value + Hex.Value(text[2 * k + 1]).value
  }

  /** A script that is not there reads as the empty one of version 0. */
  ghost predicate ScriptSays(p: Option<ProtoScript>, s: Script) {
    match p
    case None => s == Script(0, [])
    case Some(x) => s.version == x.version <= 65535 && HexSays(x.scriptPublicKey, s.bytes)
  }

  /** Of the two mass fields the version's own one counts, and the other one is zero. */
  ghost predicate CommitSays(version: nat, p: ProtoInput, c: ComputeCommit) {
    if version == 0 then c == SigOpCount(p.sigOpCount) && p.sigOpCount <= 255 && p.computeBudget == 0
    else c == ComputeBudget(p.computeBudget) && p.computeBudget <= 65535 && p.sigOpCount == 0
  }

  ghost predicate InputSays(version: nat, p: ProtoInput, i: TxInput<Hash>) {
    && p.previousOutpoint.Some? && |p.previousOutpoint.value.transactionId| == 32
    && i.previousOutpoint.transactionId == p.previousOutpoint.value.transactionId
    && i.previousOutpoint.index == p.previousOutpoint.value.index
    && i.signatureScript == p.signatureScript && i.sequence == p.sequence
    && CommitSays(version, p, i.commit)
  }

  ghost predicate OutputSays(p: ProtoOutput, o: Output) {
    o.value == p.value && ScriptSays(p.script, o.script) && o.covenant == None
  }

  ghost predicate EntrySays(p: ProtoOptionalEntry, e: Option<UtxoEntry>) {
    && p.entry.Some? && e.Some?
    && e.value.amount == p.entry.value.amount && ScriptSays(p.entry.value.script, e.value.script)
    && e.value.blockDaaScore == p.entry.value.blockDaaScore && e.value.isCoinbase == p.entry.value.isCoinbase
    && e.value.covenantId == None
  }

  ghost predicate TxSays(p: ProtoTransaction, t: Tx<Hash>) {
    && t.version == p.version <= 65535
    && |t.inputs| == |p.inputs| && (forall i :: 0 <= i < |p.inputs| ==> InputSays(p.version, p.inputs[i], t.inputs[i]))
    && |t.outputs| == |p.outputs| && (forall i :: 0 <= i < |p.outputs| ==> OutputSays(p.outputs[i], t.outputs[i]))
    && t.lockTime == p.lockTime && t.subnetworkId == p.subnetworkId && |p.subnetworkId| == 20
    && t.gas == p.gas && t.payload == p.payload && t.storageMass == p.mass
  }

  ghost predicate MassesSay(p: Option<ProtoMasses>, m: Option<Masses>) {
    match p
    case None => m == None
    case Some(x) => m.Some? && m.value.compute == x.compute && m.value.transient == x.transient
  }

  /** One entry for each input, none of them missing. */
  ghost predicate SignableSays(p: ProtoSignable, s: Signable<Hash>) {
    && p.tx.Some? && TxSays(p.tx.value, s.tx)
    && |s.entries| == |p.entries| == |p.tx.value.inputs|
    && (forall i :: 0 <= i < |p.entries| ==> EntrySays(p.entries[i], s.entries[i]))
    && s.calculatedFee == p.calculatedFee && MassesSay(p.masses, s.masses)
  }

  ghost predicate SignedSays(p: ProtoSignedTransaction, s: Signed<Hash>) {
    match p.signed
    case None => false
    case Some(ProtoFully(inner)) => s.Fully? && SignableSays(inner, s.inner)
    case Some(ProtoPartially(inner)) => s.Partially? && SignableSays(inner, s.inner)
  }

  /** Keychain 1 is the internal one, any other the external one. */
  ghost predicate AddressSays(p: ProtoAddress, a: WalletAddress) {
    && a.index == p.index && a.cosignerIndex == p.cosignerIndex <= 65535
    && (a.keychain == Internal <==> p.keychain == 1)
  }

  /** The paths are the message's, each where it first occurs. */
  ghost predicate PathsSay(ps: seq<ProtoPath>, paths: seq<DerivationPath>) {
    paths == Dedup(seq(|ps|, i requires 0 <= i < |ps| => ps[i].path))
  }

  ghost predicate Says(p: ProtoWalletTx, parse: string -> Option<Address>, w: WalletTx<Hash>) {
    && p.transaction.Some? && SignedSays(p.transaction.value, w.transaction)
    && PathsSay(p.derivationPaths, w.derivationPaths)
    && |w.addressByInputIndex| == |p.addressByInputIndex|
    && (forall i :: 0 <= i < |p.addressByInputIndex| ==>
          AddressSays(p.addressByInputIndex[i], w.addressByInputIndex[i]))
    && |w.addressByOutputIndex| == |p.addressByOutputIndex|
    && (forall i :: 0 <= i < |p.addressByOutputIndex| ==>
          parse(p.addressByOutputIndex[i]) == Some(w.addressByOutputIndex[i]))
  }

  /* ----- decoding reads exactly that ----- */

  lemma {:induction false} HexIff(text: string, bytes: seq<Byte>)
    ensures Hex.Decode(text) == Some(bytes) <==> HexSays(text, bytes)
  {
    if |text| >= 2 && bytes != [] {
      var rest, more := text[2..], bytes[1..];
      HexIff(rest, more);
      if HexSays(text, bytes) {
        assert ByteSays(text, bytes, 0);
        forall k | 0 <= k < |more| ensures ByteSays(rest, more, k) {
          assert ByteSays(text, bytes, k + 1);
        }
        assert bytes == [bytes[0]] + more;
      }
      if Hex.Decode(text) == Some(bytes) {
        forall k | 0 <= k < |bytes| ensures ByteSays(text, bytes, k) {
          if k > 0 {
            assert ByteSays(rest, more, k - 1);
          }
        }
      }
    }
  }

  lemma ScriptIff(p: Option<ProtoScript>, s: Script)
    ensures DecodeScript(OrElse(p, NO_SCRIPT)) == Ok(s) <==> ScriptSays(p, s)
  {
    if p.Some? {
      HexIff(p.value.scriptPublicKey, s.bytes);
    }
  }

  lemma InputIff(version: U16, p: ProtoInput, i: TxInput<Hash>)
    ensures DecodeInput(version)(p) == Ok(i) <==> InputSays(version, p, i)
  {
  }

  lemma OutputIff(p: ProtoOutput, o: Output)
    ensures DecodeOutput(p) == Ok(o) <==> OutputSays(p, o)
  {
    hide DecodeScript, ScriptSays;
    ScriptIff(p.script, o.script);
  }

  lemma EntryIff(p: ProtoOptionalEntry, e: Option<UtxoEntry>)
    ensures DecodeEntry(p) == Ok(e) && e.Some? <==> EntrySays(p, e)
  {
    hide DecodeScript, ScriptSays;
    if p.entry.Some? && e.Some? {
      ScriptIff(p.entry.value.script, e.value.script);
    }
  }

  /** A list decodes to another exactly when its elements do, one by one. */
  lemma TryMapIff<A, B(!new)>(f: A -> Result<B>, s: seq<A>, t: seq<B>)
    ensures TryMap(f, s) == Ok(t) <==> |t| == |s| && forall i :: 0 <= i < |s| ==> f(s[i]) == Ok(t[i])
  {
    if |t| == |s| && forall i :: 0 <= i < |s| ==> f(s[i]) == Ok(t[i]) {
      TryMapInverts(f, s, t);
    }
  }

  lemma TxIff(p: ProtoTransaction, t: Tx<Hash>)
    ensures DecodeTx(p) == Ok(t) <==> TxSays(p, t)
  {
    hide DecodeInput, DecodeOutput, InputSays, OutputSays, TryMap;
    if p.version <= 65535 {
      TryMapIff(DecodeInput(p.version), p.inputs, t.inputs);
      TryMapIff(DecodeOutput, p.outputs, t.outputs);
      forall i | 0 <= i < |p.inputs| && |t.inputs| == |p.inputs|
        ensures DecodeInput(p.version)(p.inputs[i]) == Ok(t.inputs[i])
          <==> InputSays(p.version, p.inputs[i], t.inputs[i])
      {
        InputIff(p.version, p.inputs[i], t.inputs[i]);
      }
      forall i | 0 <= i < |p.outputs| && |t.outputs| == |p.outputs|
        ensures DecodeOutput(p.outputs[i]) == Ok(t.outputs[i]) <==> OutputSays(p.outputs[i], t.outputs[i])
      {
        OutputIff(p.outputs[i], t.outputs[i]);
      }
    }
  }

  lemma SignableIff(p: ProtoSignable, s: Signable<Hash>)
    ensures DecodeSignable(p) == Ok(s) <==> SignableSays(p, s)
  {
    hide DecodeTx, DecodeEntry, TxSays, EntrySays, TryMap;
    NoTransactionIsRefused(s.tx);
    if p.tx.Some? {
      TxIff(p.tx.value, s.tx);
    }
    TryMapIff(DecodeEntry, p.entries, s.entries);
    if |s.entries| == |p.entries| {
      forall i | 0 <= i < |p.entries|
        ensures DecodeEntry(p.entries[i]) == Ok(s.entries[i]) && s.entries[i].Some?
          <==> EntrySays(p.entries[i], s.entries[i])
      {
        EntryIff(p.entries[i], s.entries[i]);
      }
      if p.tx.Some? && TxSays(p.tx.value, s.tx) {
        InputsSaid(p.tx.value, s.tx);
      }
      EntriesThere(s.entries);
    }
  }

  lemma NoTransactionIsRefused(t: Tx<Hash>)
    ensures DecodeTx(NO_TRANSACTION) != Ok(t)
  {
  }

  lemma InputsSaid(p: ProtoTransaction, t: Tx<Hash>)
    requires TxSays(p, t)
    ensures |t.inputs| == |p.inputs|
  {
  }

  lemma EntriesThere(es: seq<Option<UtxoEntry>>)
    ensures (forall e :: e in es ==> e.Some?) <==> forall i :: 0 <= i < |es| ==> es[i].Some?
  {
  }

  lemma SignedIff(p: ProtoSignedTransaction, s: Signed<Hash>)
    ensures DecodeSigned(p) == Ok(s) <==> SignedSays(p, s)
  {
    hide DecodeSignable, SignableSays;
    if p.signed.Some? {
      SignableIff(p.signed.value.inner, s.inner);
    }
  }

  lemma AddressIff(p: ProtoAddress, a: WalletAddress)
    ensures DecodeAddress(p) == Ok(a) <==> AddressSays(p, a)
  {
  }

  /** A message decodes to a transaction exactly when it says that transaction. */
  lemma DecodesIff(p: ProtoWalletTx, parse: string -> Option<Address>, w: WalletTx<Hash>)
    ensures Decode(p, parse) == Ok(w) <==> Says(p, parse, w)
  {
    hide DecodeSigned, DecodeAddress, SignedSays, AddressSays, TryMap, Dedup;
    var signed := OrElse(p.transaction, NO_SIGNED);
    assert !SignedSays(NO_SIGNED, w.transaction) by {
      NothingIsSaid(w.transaction);
    }
    SignedIff(signed, w.transaction);
    TryMapIff(Parsed(parse), p.addressByOutputIndex, w.addressByOutputIndex);
    TryMapIff(DecodeAddress, p.addressByInputIndex, w.addressByInputIndex);
    if |w.addressByInputIndex| == |p.addressByInputIndex| {
      forall i | 0 <= i < |p.addressByInputIndex|
        ensures DecodeAddress(p.addressByInputIndex[i]) == Ok(w.addressByInputIndex[i])
          <==> AddressSays(p.addressByInputIndex[i], w.addressByInputIndex[i])
      {
        AddressIff(p.addressByInputIndex[i], w.addressByInputIndex[i]);
      }
    }
    var ps := p.derivationPaths;
    assert Map(PathOf, ps) == seq(|ps|, i requires 0 <= i < |ps| => ps[i].path);
  }

  lemma NothingIsSaid(s: Signed<Hash>)
    ensures !SignedSays(NO_SIGNED, s)
  {
  }

  /* ----- encoding says it ----- */

  /** The message made of a well-formed transaction says that transaction, and carries its id. */
  lemma EncodingSays(w: WalletTx<Hash>, idOf: Tx<Hash> -> Hash, show: Address -> string,
                     parse: string -> Option<Address>)
    requires IsAddressText(show, parse) && WellFormed(w)
    ensures Fits(w) && Says(Encode(w, idOf, show), parse, w)
    ensures
      var p := Encode(w, idOf, show);
      && p.transaction.Some? && p.transaction.value.signed.Some? && p.transaction.value.signed.value.inner.tx.Some?
      && p.transaction.value.signed.value.inner.tx.value.id == idOf(w.Body())
  {
    RoundTrip(w, idOf, show, parse);
    DecodesIff(Encode(w, idOf, show), parse, w);
    hide Says, WellFormed;
  }
}
