/** Signing (daemon/src/service/sign.rs). Key derivation, Schnorr signatures, signature hashes and
    signature verification are functions the model knows nothing about. */
module Sign {
  import opened Wrappers
  import opened Sequences
  import opened Model

  type PrivateKey = seq<Byte>
  type Key = seq<Byte>

  const OP_DATA_65: Byte := 65
  const SIG_HASH_ALL: Byte := 1

  datatype Signer = Signer(
    derive: (Key, DerivationPath) -> Option<PrivateKey>,
    publicKey: PrivateKey -> seq<Byte>,
    sigHash: (Signable<TxId>, nat) -> seq<Byte>,
    schnorr: (PrivateKey, seq<Byte>) -> seq<Byte>,
    verify: Signable<TxId> -> bool)

  /* ----- the keys ----- */

  function PubKeyScript(publicKey: seq<Byte>): seq<Byte> {
    [0x20] + publicKey + [0xac]
  }

  /** The key for each script; of two keys with one script the later stays. */
  function KeysByScript(g: Signer, privateKeys: seq<PrivateKey>): (m: map<seq<Byte>, PrivateKey>)
    ensures forall k :: k in privateKeys ==> PubKeyScript(g.publicKey(k)) in m
    ensures forall s :: s in m ==> m[s] in privateKeys && PubKeyScript(g.publicKey(m[s])) == s
  {
    if privateKeys == [] then map[]
    else
      var last := privateKeys[|privateKeys| - 1];
      assert privateKeys == privateKeys[..|privateKeys| - 1] + [last];
      KeysByScript(g, privateKeys[..|privateKeys| - 1])[PubKeyScript(g.publicKey(last)) := last]
  }

  function DerivedFrom(g: Signer, path: DerivationPath): Key -> Result<seq<PrivateKey>> {
    (key: Key) => match g.derive(key, path) case None => Err(Bip32Derivation) case Some(k) => Ok([k])
  }

  function DerivedAt(g: Signer, keys: seq<Key>): DerivationPath -> Result<seq<PrivateKey>> {
    (path: DerivationPath) => Collect(DerivedFrom(g, path), keys)
  }

  /** One private key for each path and each of the wallet's keys. */
  function PrivateKeys(g: Signer, paths: seq<DerivationPath>, keys: seq<Key>): Result<seq<PrivateKey>> {
    Collect(DerivedAt(g, keys), paths)
  }

  /* ----- the signatures ----- */

  function SignatureScript(signature: seq<Byte>): seq<Byte> {
    [OP_DATA_65] + signature + [SIG_HASH_ALL]
  }

  function WithScript(s: Signable<TxId>, i: nat, script: seq<Byte>): Signable<TxId>
    requires i < |s.tx.inputs|
  {
    s.(tx := s.tx.(inputs := s.tx.inputs[i := s.tx.inputs[i].(signatureScript := script)]))
  }

  predicate HasEntry(s: Signable<TxId>, i: nat) {
    i < |s.entries| && s.entries[i].Some?
  }

  /** Upstream refuses to look at a transaction whose entries do not match its inputs. */
  predicate Verifiable(s: Signable<TxId>) {
    |s.entries| == |s.tx.inputs| && forall e :: e in s.entries ==> e.Some?
  }

  /** Signing input `i`: the transaction, and whether the input's key was found. */
  function SignedInput(g: Signer, keys: map<seq<Byte>, PrivateKey>, s: Signable<TxId>,
                       i: nat): (r: Result<(Signable<TxId>, bool)>)
    requires i < |s.tx.inputs|
    ensures r.Ok? ==> |r.value.0.tx.inputs| == |s.tx.inputs| && r.value.0.entries == s.entries
    ensures r.Err? ==> r.error == MissingElement
  {
    if !HasEntry(s, i) then Err(MissingElement)
    else if s.entries[i].value.script.bytes !in keys then Ok((s, false))
    else if !Verifiable(s) then Err(MissingElement)
    else
      var script := s.entries[i].value.script.bytes;
      Ok((WithScript(s, i, SignatureScript(g.schnorr(keys[script], g.sigHash(s, i)))), true))
  }

  /** After the first `i` inputs: the transaction, and whether all of them found their key. */
  function SignedInputs(g: Signer, keys: map<seq<Byte>, PrivateKey>, s: Signable<TxId>,
                        i: nat): (r: Result<(Signable<TxId>, bool)>)
    requires i <= |s.tx.inputs|
    ensures r.Ok? ==> |r.value.0.tx.inputs| == |s.tx.inputs| && r.value.0.entries == s.entries
    ensures r.Err? ==> r.error == MissingElement
  {
    if i == 0 then Ok((s, true))
    else
      var (before, all) :- SignedInputs(g, keys, s, i - 1);
      var (t, found) :- SignedInput(g, keys, before, i - 1);
      Ok((t, all && found))
  }

  function SignedWith(g: Signer, s: Signable<TxId>, privateKeys: seq<PrivateKey>): Result<Signed<TxId>> {
    var (t, all) :- SignedInputs(g, KeysByScript(g, privateKeys), s, |s.tx.inputs|);
    Ok(if all then Fully(t) else Partially(t))
  }

  /** A fully signed transaction is checked; a partially signed one cannot be. */
  function SignedOf(g: Signer, w: Transfer, keys: seq<Key>): Result<Signed<TxId>> {
    var privateKeys :- PrivateKeys(g, w.derivationPaths, keys);
    var signed :- SignedWith(g, w.transaction.inner, privateKeys);
    :- Need(signed.Partially? || g.verify(signed.inner), VerifyFailed);
    Ok(signed)
  }

  function SignedTransfer(g: Signer, keys: seq<Key>): Transfer -> Result<seq<Transfer>> {
    (w: Transfer) =>
      match SignedOf(g, w, keys)
      case Err(e) => Err(e)
      case Ok(signed) => Ok([WalletTx(signed, w.derivationPaths, w.addressByInputIndex, w.addressByOutputIndex)])
  }

  function AllSigned(g: Signer, keys: seq<Key>, ws: seq<Transfer>): Result<seq<Transfer>> {
    Collect(SignedTransfer(g, keys), ws)
  }

  /* ----- the loops ----- */

  /** One input: look its script up among the keys and sign. */
  method SignInput(g: Signer, keys: map<seq<Byte>, PrivateKey>, s: Signable<TxId>, i: nat)
    returns (r: Result<(Signable<TxId>, bool)>)
    requires i < |s.tx.inputs|
    ensures r == SignedInput(g, keys, s, i)
  {
    if !HasEntry(s, i) {
      return Err(MissingElement);
    }
    var script := s.entries[i].value.script.bytes;
    if script !in keys {
      return Ok((s, false));
    }
    if !Verifiable(s) {
      return Err(MissingElement);
    }
    var signature := g.schnorr(keys[script], g.sigHash(s, i));
    r := Ok((WithScript(s, i, SignatureScript(signature)), true));
  }

  method SignWithMultiple(g: Signer, s: Signable<TxId>, privateKeys: seq<PrivateKey>) returns (r: Result<Signed<TxId>>)
    ensures r == SignedWith(g, s, privateKeys)
  {
    hide SignedInput, PubKeyScript;
    var keys: map<seq<Byte>, PrivateKey> := map[];
    for k := 0 to |privateKeys|
      invariant keys == KeysByScript(g, privateKeys[..k])
    {
      assert privateKeys[..k + 1][..k] == privateKeys[..k];
      keys := keys[PubKeyScript(g.publicKey(privateKeys[k])) := privateKeys[k]];
    }
    assert privateKeys[..|privateKeys|] == privateKeys;
    hide KeysByScript;
    var t, additionalSignaturesRequired := s, false;
    for i := 0 to |s.tx.inputs|
      invariant |t.tx.inputs| == |s.tx.inputs|
      invariant SignedInputs(g, keys, s, i) == Ok((t, !additionalSignaturesRequired))
    {
      var signed := SignInput(g, keys, t, i);
      if signed.Err? {
        MissingEntry(g, keys, s, i + 1);
        return Err(MissingElement);
      }
      t := signed.value.0;
      if !signed.value.1 {
        additionalSignaturesRequired := true;
      }
    }
    r := Ok(if additionalSignaturesRequired then Partially(t) else Fully(t));
  }

  lemma {:induction false} MissingEntry(g: Signer, keys: map<seq<Byte>, PrivateKey>, s: Signable<TxId>, i: nat)
    requires i <= |s.tx.inputs| && SignedInputs(g, keys, s, i).Err?
    ensures SignedInputs(g, keys, s, |s.tx.inputs|) == Err(MissingElement)
    decreases |s.tx.inputs| - i
  {
    if i < |s.tx.inputs| {
      MissingEntry(g, keys, s, i + 1);
    }
  }

  method SignTransaction(g: Signer, w: Transfer, keys: seq<Key>) returns (r: Result<Signed<TxId>>)
    ensures r == SignedOf(g, w, keys)
  {
    hide Collect, SignedWith;
    var privateKeys: seq<PrivateKey>, paths := [], w.derivationPaths;
    CollectBegins(DerivedAt(g, keys), paths);
    for i := 0 to |paths|
      invariant PrivateKeys(g, paths, keys) == Prepend(privateKeys, Collect(DerivedAt(g, keys), paths[i..]))
    {
      CollectStep(DerivedAt(g, keys), paths, i, privateKeys);
      var here := KeysAt(g, paths[i], keys);
      if here.Err? {
        return Err(here.error);
      }
      privateKeys := privateKeys + here.value;
    }
    CollectEnds(DerivedAt(g, keys), paths, privateKeys);
    r := SignWithMultiple(g, w.transaction.inner, privateKeys);
    if r.Ok? && r.value.Fully? && !g.verify(r.value.inner) {
      r := Err(VerifyFailed);
    }
  }

  /** The inner loop: one path, all keys. */
  method KeysAt(g: Signer, path: DerivationPath, keys: seq<Key>) returns (r: Result<seq<PrivateKey>>)
    ensures r == Collect(DerivedFrom(g, path), keys)
  {
    hide Collect;
    var found: seq<PrivateKey> := [];
    CollectBegins(DerivedFrom(g, path), keys);
    for j := 0 to |keys|
      invariant Collect(DerivedFrom(g, path), keys) == Prepend(found, Collect(DerivedFrom(g, path), keys[j..]))
    {
      CollectStep(DerivedFrom(g, path), keys, j, found);
      var key := g.derive(keys[j], path);
      if key.None? {
        return Err(Bip32Derivation);
      }
      found := found + [key.value];
    }
    CollectEnds(DerivedFrom(g, path), keys, found);
    r := Ok(found);
  }

  method SignTransactions(g: Signer, keys: seq<Key>, ws: seq<Transfer>) returns (r: Result<seq<Transfer>>)
    ensures r == AllSigned(g, keys, ws)
  {
    hide Collect, SignedOf;
    var signed: seq<Transfer> := [];
    CollectBegins(SignedTransfer(g, keys), ws);
    for i := 0 to |ws|
      invariant AllSigned(g, keys, ws) == Prepend(signed, Collect(SignedTransfer(g, keys), ws[i..]))
    {
      CollectStep(SignedTransfer(g, keys), ws, i, signed);
      var w := SignTransaction(g, ws[i], keys);
      if w.Err? {
        return Err(w.error);
      }
      signed := signed
        + [WalletTx(w.value, ws[i].derivationPaths, ws[i].addressByInputIndex, ws[i].addressByOutputIndex)];
    }
    CollectEnds(SignedTransfer(g, keys), ws, signed);
    r := Ok(signed);
  }

  /* ----- what signing changes, and when it is complete ----- */

  function Unsigned(i: TxInput<TxId>): TxInput<TxId> {
    i.(signatureScript := [])
  }

  /** Nothing but signature scripts differs. */
  ghost predicate SameButScripts(s: Signable<TxId>, t: Signable<TxId>) {
    && t == s.(tx := s.tx.(inputs := t.tx.inputs))
    && |t.tx.inputs| == |s.tx.inputs| && forall i :: 0 <= i < |s.tx.inputs| ==>
      Unsigned(t.tx.inputs[i]) == Unsigned(s.tx.inputs[i])
  }

  /** Input `i` has the signature of the key of the script it spends, made over the transaction as
      it was when its turn came; an input whose key is unknown is untouched. */
  ghost predicate IsSigned(g: Signer, keys: map<seq<Byte>, PrivateKey>, s: Signable<TxId>, t: Signable<TxId>, i: nat) {
    && i < |s.tx.inputs| == |t.tx.inputs| && HasEntry(s, i)
    && if s.entries[i].value.script.bytes !in keys then t.tx.inputs[i] == s.tx.inputs[i]
       else exists u :: SameButScripts(s, u) && SignedOver(g, keys[s.entries[i].value.script.bytes], t, u, i)
  }

  ghost predicate SignedOver(g: Signer, key: PrivateKey, t: Signable<TxId>, u: Signable<TxId>, i: nat)
    requires i < |t.tx.inputs|
  {
    Carries(t.tx.inputs[i].signatureScript, g.schnorr(key, g.sigHash(u, i)))
  }

  /** The script pushes the signature and the byte 1, which says that it is over everything. The push is
      one byte: 65, which is how many bytes follow a signature's first when it has 64. */
  ghost predicate Carries(script: seq<Byte>, signature: seq<Byte>) {
    && |script| == |signature| + 2
    && script[0] == 65 && script[1..|script| - 1] == signature && script[|script| - 1] == 1
    && (|signature| == 64 ==> |script| == 66 && script[0] == |script[1..]|)
  }

  lemma ScriptCarries(signature: seq<Byte>)
    ensures Carries(SignatureScript(signature), signature)
  {
  }

  ghost predicate AllKeysFound(keys: map<seq<Byte>, PrivateKey>, s: Signable<TxId>, n: nat) {
    forall i :: 0 <= i < n ==> HasEntry(s, i) && s.entries[i].value.script.bytes in keys
  }

  lemma SigningOne(g: Signer, keys: map<seq<Byte>, PrivateKey>, s: Signable<TxId>, before: Signable<TxId>, i: nat)
    requires i < |s.tx.inputs| && SameButScripts(s, before) && before.tx.inputs[i] == s.tx.inputs[i]
    requires SignedInput(g, keys, before, i).Ok?
    ensures
      var (t, found) := SignedInput(g, keys, before, i).value;
      && SameButScripts(s, t) && IsSigned(g, keys, s, t, i) && HasEntry(s, i)
      && (found <==> s.entries[i].value.script.bytes in keys)
      && forall j :: 0 <= j < |s.tx.inputs| && j != i ==> t.tx.inputs[j] == before.tx.inputs[j]
  {
    hide Verifiable;
    var (t, found) := SignedInput(g, keys, before, i).value;
    if found {
      ScriptCarries(g.schnorr(keys[s.entries[i].value.script.bytes], g.sigHash(before, i)));
      assert SignedOver(g, keys[s.entries[i].value.script.bytes], t, before, i);
    }
  }

  lemma {:induction false} SigningFacts(g: Signer, keys: map<seq<Byte>, PrivateKey>, s: Signable<TxId>, n: nat)
    requires n <= |s.tx.inputs| && SignedInputs(g, keys, s, n).Ok?
    ensures
      var (t, all) := SignedInputs(g, keys, s, n).value;
      && SameButScripts(s, t)
      && (forall i :: 0 <= i < n ==> IsSigned(g, keys, s, t, i))
      && (forall i :: n <= i < |s.tx.inputs| ==> t.tx.inputs[i] == s.tx.inputs[i])
      && (all <==> AllKeysFound(keys, s, n))
  {
    if n == 0 {
      NothingSignedYet(g, keys, s);
    } else {
      hide *;
      OneMoreInput(g, keys, s, n);
      SigningFacts(g, keys, s, n - 1);
      var (before, _) := SignedInputs(g, keys, s, n - 1).value;
      var (t, _) := SignedInputs(g, keys, s, n).value;
      SigningOne(g, keys, s, before, n - 1);
      OneMoreKey(keys, s, n);
      forall i | 0 <= i < n - 1 ensures IsSigned(g, keys, s, t, i) {
        StaysSigned(g, keys, s, before, t, i);
      }
    }
  }

  lemma NothingSignedYet(g: Signer, keys: map<seq<Byte>, PrivateKey>, s: Signable<TxId>)
    ensures SignedInputs(g, keys, s, 0) == Ok((s, true)) && SameButScripts(s, s) && AllKeysFound(keys, s, 0)
  {
  }

  lemma OneMoreInput(g: Signer, keys: map<seq<Byte>, PrivateKey>, s: Signable<TxId>, n: nat)
    requires 0 < n <= |s.tx.inputs| && SignedInputs(g, keys, s, n).Ok?
    ensures SignedInputs(g, keys, s, n - 1).Ok?
    ensures
      var (before, all) := SignedInputs(g, keys, s, n - 1).value;
      var last := SignedInput(g, keys, before, n - 1);
      last.Ok? && SignedInputs(g, keys, s, n) == Ok((last.value.0, all && last.value.1))
  {
    hide SignedInput;
  }

  lemma OneMoreKey(keys: map<seq<Byte>, PrivateKey>, s: Signable<TxId>, n: nat)
    requires n > 0
    ensures AllKeysFound(keys, s, n) <==>
      AllKeysFound(keys, s, n - 1) && HasEntry(s, n - 1) && s.entries[n - 1].value.script.bytes in keys
  {
  }

  lemma StaysSigned(g: Signer, keys: map<seq<Byte>, PrivateKey>, s: Signable<TxId>, before: Signable<TxId>,
                    t: Signable<TxId>, i: nat)
    requires IsSigned(g, keys, s, before, i) && |t.tx.inputs| == |before.tx.inputs|
    requires t.tx.inputs[i] == before.tx.inputs[i]
    ensures IsSigned(g, keys, s, t, i)
  {
    hide SameButScripts;
    if s.entries[i].value.script.bytes in keys {
      var key := keys[s.entries[i].value.script.bytes];
      var u :| SameButScripts(s, u) && SignedOver(g, key, before, u, i);
      assert SignedOver(g, key, t, u, i);
    }
  }

  /** Signing succeeds on entries that match the inputs. */
  lemma {:induction false} SigningSucceeds(g: Signer, keys: map<seq<Byte>, PrivateKey>, s: Signable<TxId>, n: nat)
    requires n <= |s.tx.inputs| && Verifiable(s)
    ensures SignedInputs(g, keys, s, n).Ok?
  {
    if n > 0 {
      SigningSucceeds(g, keys, s, n - 1);
    }
  }

  /** Whatever the keys, a signed transaction is the unsigned one with other signature scripts, so
      it has the same id, spends the same coins and creates the same ones. */
  lemma SigningKeepsTheRest(g: Signer, w: Transfer, keys: seq<Key>)
    requires SignedOf(g, w, keys).Ok?
    ensures
      var signed := SignedOf(g, w, keys).value.inner;
      && SameButScripts(w.transaction.inner, signed)
      && Spends(signed.tx) == Spends(w.Body()) && IdOf(signed.tx) == IdOf(w.Body())
  {
    var privateKeys := PrivateKeys(g, w.derivationPaths, keys).value;
    var s := w.transaction.inner;
    SigningFacts(g, KeysByScript(g, privateKeys), s, |s.tx.inputs|);
    hide SignedInputs, KeysByScript, PrivateKeys;
    var t := SignedOf(g, w, keys).value.inner;
    assert forall i :: 0 <= i < |t.tx.inputs| ==>
      Unsigned(t.tx.inputs[i]).previousOutpoint == Unsigned(s.tx.inputs[i]).previousOutpoint;
    assert Spends(t.tx) == Spends(s.tx);
  }

  lemma {:induction false} KeysAtEveryPath(g: Signer, paths: seq<DerivationPath>, keys: seq<Key>,
                                           path: DerivationPath, key: Key)
    requires PrivateKeys(g, paths, keys).Ok? && path in paths && key in keys
    ensures g.derive(key, path).Some? && g.derive(key, path).value in PrivateKeys(g, paths, keys).value
  {
    if path == paths[0] {
      KeyAmong(g, path, keys, key);
    } else {
      KeysAtEveryPath(g, paths[1..], keys, path, key);
    }
  }

  lemma {:induction false} KeyAmong(g: Signer, path: DerivationPath, keys: seq<Key>, key: Key)
    requires Collect(DerivedFrom(g, path), keys).Ok? && key in keys
    ensures g.derive(key, path).Some? && g.derive(key, path).value in Collect(DerivedFrom(g, path), keys).value
  {
    if key != keys[0] {
      KeyAmong(g, path, keys[1..], key);
    }
  }

  /** Every input spends a script of one of the wallet's keys, at a path the transaction carries. */
  ghost predicate KeysCover(g: Signer, w: Transfer, keys: seq<Key>) {
    && Verifiable(w.transaction.inner)
    && forall i :: 0 <= i < |w.Entries()| ==> HasSomeKey(g, w, keys, i)
  }

  ghost predicate HasSomeKey(g: Signer, w: Transfer, keys: seq<Key>, i: nat)
    requires i < |w.Entries()| && w.Entries()[i].Some?
  {
    exists key, path :: HasKey(g, w, keys, i, key, path)
  }

  ghost predicate HasKey(g: Signer, w: Transfer, keys: seq<Key>, i: nat, key: Key, path: DerivationPath)
    requires i < |w.Entries()| && w.Entries()[i].Some?
  {
    && key in keys && path in w.derivationPaths && g.derive(key, path).Some?
    && w.Entries()[i].value.script.bytes == PubKeyScript(g.publicKey(g.derive(key, path).value))
  }

  /** Such a transaction is signed in full, or fails only where derivation or verification does. */
  lemma SignsFully(g: Signer, w: Transfer, keys: seq<Key>)
    requires KeysCover(g, w, keys)
    ensures SignedOf(g, w, keys).Ok? ==> SignedOf(g, w, keys).value.Fully?
    ensures SignedOf(g, w, keys).Err? ==>
      SignedOf(g, w, keys).error == VerifyFailed || PrivateKeys(g, w.derivationPaths, keys).Err?
  {
    if PrivateKeys(g, w.derivationPaths, keys).Ok? {
      var privateKeys, s := PrivateKeys(g, w.derivationPaths, keys).value, w.transaction.inner;
      var m := KeysByScript(g, privateKeys);
      SigningSucceeds(g, m, s, |s.tx.inputs|);
      SigningFacts(g, m, s, |s.tx.inputs|);
      forall i | 0 <= i < |s.tx.inputs| ensures s.entries[i].value.script.bytes in m {
        assert HasSomeKey(g, w, keys, i);
        var key, path :| HasKey(g, w, keys, i, key, path);
        KeysAtEveryPath(g, w.derivationPaths, keys, path, key);
      }
    }
  }

  /** A transaction comes out as the keys sign it, unless a key cannot be derived or an entry is missing,
      or it is fully signed and its signatures do not check. */
  lemma SignedIff(g: Signer, w: Transfer, keys: seq<Key>)
    ensures
      var privateKeys := PrivateKeys(g, w.derivationPaths, keys);
      SignedOf(g, w, keys).Ok? <==>
        && privateKeys.Ok?
        && var signed := SignedWith(g, w.transaction.inner, privateKeys.value);
        signed.Ok? && (signed.value.Fully? ==> g.verify(signed.value.inner))
    ensures SignedOf(g, w, keys).Ok? ==>
      SignedWith(g, w.transaction.inner, PrivateKeys(g, w.derivationPaths, keys).value) == SignedOf(g, w, keys)
  {
    hide PrivateKeys, SignedWith;
  }

  /* ----- the signatures, byte by byte ----- */

  /** A signature hash leaves signature scripts out, as that of the network does. */
  ghost predicate HashesRest(g: Signer) {
    forall s, u, i :: SameButScripts(s, u) ==> g.sigHash(u, i) == g.sigHash(s, i)
  }

  /** The coin is locked by 32 (the length of what follows), the key's public key, and 0xac. */
  ghost predicate Unlocks(g: Signer, key: PrivateKey, script: seq<Byte>) {
    var publicKey := g.publicKey(key);
    && |script| == |publicKey| + 2
    && script[0] == 32 && script[1..|script| - 1] == publicKey && script[|script| - 1] == 0xac
  }

  /** What an input says after signing: what it said, if no key unlocks the coin it spends; else the
      signature, over the transaction as it came, of a key that does. */
  ghost predicate SignedByOwner(g: Signer, s: Signable<TxId>, privateKeys: seq<PrivateKey>, i: nat, script: seq<Byte>)
    requires i < |s.tx.inputs| && HasEntry(s, i)
  {
    var lock := s.entries[i].value.script.bytes;
    if forall k :: k in privateKeys ==> !Unlocks(g, k, lock) then script == s.tx.inputs[i].signatureScript
    else exists k :: k in privateKeys && Unlocks(g, k, lock) && Carries(script, g.schnorr(k, g.sigHash(s, i)))
  }

  ghost predicate HasOwner(g: Signer, s: Signable<TxId>, privateKeys: seq<PrivateKey>, i: nat) {
    HasEntry(s, i) && exists k :: k in privateKeys && Unlocks(g, k, s.entries[i].value.script.bytes)
  }

  lemma UnlocksIff(g: Signer, key: PrivateKey, script: seq<Byte>)
    ensures PubKeyScript(g.publicKey(key)) == script <==> Unlocks(g, key, script)
  {
    var bytes := PubKeyScript(g.publicKey(key));
    assert bytes[1..|bytes| - 1] == g.publicKey(key);
    if Unlocks(g, key, script) {
      assert script == [script[0]] + script[1..|script| - 1] + [script[|script| - 1]];
    }
  }

  lemma KeyFoundIff(g: Signer, privateKeys: seq<PrivateKey>, lock: seq<Byte>)
    ensures lock in KeysByScript(g, privateKeys) <==> exists k :: k in privateKeys && Unlocks(g, k, lock)
    ensures lock in KeysByScript(g, privateKeys) ==>
      KeysByScript(g, privateKeys)[lock] in privateKeys && Unlocks(g, KeysByScript(g, privateKeys)[lock], lock)
  {
    hide PubKeyScript, Unlocks;
    var m := KeysByScript(g, privateKeys);
    forall k ensures PubKeyScript(g.publicKey(k)) == lock <==> Unlocks(g, k, lock) {
      UnlocksIff(g, k, lock);
    }
  }

  /** Each input ends up with the signature of its coin's owner over the whole transaction, and the
      transaction counts as fully signed exactly when every coin has an owner among the keys. */
  lemma SignaturesAre(g: Signer, s: Signable<TxId>, privateKeys: seq<PrivateKey>)
    requires HashesRest(g) && SignedWith(g, s, privateKeys).Ok?
    ensures
      var signed := SignedWith(g, s, privateKeys).value;
      && SameButScripts(s, signed.inner)
      && (forall i :: 0 <= i < |s.tx.inputs| ==>
            HasEntry(s, i) && SignedByOwner(g, s, privateKeys, i, signed.inner.tx.inputs[i].signatureScript))
      && (signed.Fully? <==> forall i :: 0 <= i < |s.tx.inputs| ==> HasOwner(g, s, privateKeys, i))
  {
    hide SignedInputs, KeysByScript, Unlocks, Carries;
    var m, signed := KeysByScript(g, privateKeys), SignedWith(g, s, privateKeys).value;
    SigningFacts(g, m, s, |s.tx.inputs|);
    forall i | 0 <= i < |s.tx.inputs|
      ensures HasEntry(s, i) && SignedByOwner(g, s, privateKeys, i, signed.inner.tx.inputs[i].signatureScript)
      ensures s.entries[i].value.script.bytes in m <==> HasOwner(g, s, privateKeys, i)
    {
      assert IsSigned(g, m, s, signed.inner, i);
      var lock := s.entries[i].value.script.bytes;
      KeyFoundIff(g, privateKeys, lock);
      if lock in m {
        var u :| SameButScripts(s, u) && SignedOver(g, m[lock], signed.inner, u, i);
        assert g.sigHash(u, i) == g.sigHash(s, i);
      }
    }
  }
}
