/** The wallet's own batches, signed: a single-key wallet signs every one of its transactions in
    full, and signing changes nothing the ledger looks at. */
module SigningTheorems {
  import opened Arithmetic
  import opened Wrappers
  import opened Sequences
  import opened Model
  import opened Derivation
  import opened AddressBook
  import opened Mass
  import opened Generate
  import opened Selection
  import opened Compounding
  import opened CompoundingFacts
  import opened CompoundingTheorems
  import opened Ledger
  import opened SplitRun
  import opened Sign

  /* ----- a wallet with one key ----- */

  /** The wallet's addresses are the pay-to-pubkey addresses of its one key. */
  ghost predicate SingleKey(g: Signer, s: Scheme, keys: seq<Key>) {
    && !s.IsMultisig() && |keys| == 1
    && forall w: WalletAddress :: CalculateAddressPath(false, w).Ok? ==>
      IsKeyAt(g, s, keys[0], CalculateAddressPath(false, w).value)
  }

  ghost predicate IsKeyAt(g: Signer, s: Scheme, key: Key, path: DerivationPath) {
    g.derive(key, path).Some? && s.addressAt(path) == Address(PubKey, g.publicKey(g.derive(key, path).value))
  }

  /** A coin locked by the script of the wallet address it is booked under. */
  ghost predicate OwnScript(s: Scheme, u: Utxo) {
    Derived(s, u.address).Ok? && u.entry.script == PayToAddressScript(Derived(s, u.address).value)
  }

  ghost predicate AllOwn(s: Scheme, us: seq<Utxo>) {
    forall u :: u in us ==> OwnScript(s, u)
  }

  ghost predicate HasPath(s: Scheme, t: Transfer, i: nat)
    requires i < |t.addressByInputIndex|
  {
    exists path :: path in t.derivationPaths
      && CalculateAddressPath(s.IsMultisig(), t.addressByInputIndex[i]) == Ok(path)
  }

  /** Every output is locked by its payee's script. */
  ghost predicate PaysPayees(t: Transfer) {
    && |t.addressByOutputIndex| == |t.Body().outputs|
    && forall i :: 0 <= i < |t.Body().outputs| ==>
      t.Body().outputs[i].script == PayToAddressScript(t.addressByOutputIndex[i])
  }

  /** What the signer and the index need to know about a transaction: every input spends a script of
      the wallet at a path the transaction carries, every output pays the payee it names. */
  ghost predicate Prepared(s: Scheme, t: Transfer) {
    && Aligned(t) && AllOwn(s, CoinsOf(t)) && PaysPayees(t)
    && forall i :: 0 <= i < |t.addressByInputIndex| ==> HasPath(s, t, i)
  }

  lemma GeneratedPays(p: Params, ys: seq<Payment>, us: seq<Utxo>, payload: seq<Byte>)
    requires Generated(p, ys, us, payload).Ok?
    ensures PaysPayees(Generated(p, ys, us, payload).value)
  {
    hide Generated, PayToAddressScript;
    GeneratedShape(p, ys, us, payload);
  }

  lemma PathOfInput(p: Params, ys: seq<Payment>, us: seq<Utxo>, payload: seq<Byte>, i: nat)
    returns (q: DerivationPath)
    requires Generated(p, ys, us, payload).Ok? && i < |us|
    ensures
      var w := Generated(p, ys, us, payload).value;
      && i < |w.addressByInputIndex|
      && q in w.derivationPaths && CalculateAddressPath(p.isMultisig, w.addressByInputIndex[i]) == Ok(q)
  {
    hide CalculateAddressPath, Dedup, PathsOf, NonContextualMasses;
    q := PathsOf(p, us).value[i];
    assert q in PathsOf(p, us).value;
  }

  lemma GeneratedIsPrepared(s: Scheme, p: Params, ys: seq<Payment>, us: seq<Utxo>, payload: seq<Byte>)
    requires Generated(p, ys, us, payload).Ok? && AllOwn(s, us) && p.isMultisig == s.IsMultisig()
    ensures Prepared(s, Generated(p, ys, us, payload).value)
  {
    hide Generated, CalculateAddressPath, Derived, PayToAddressScript, CoinsOf;
    var w := Generated(p, ys, us, payload).value;
    CoinsOfBuilt(p, ys, us, payload);
    GeneratedPays(p, ys, us, payload);
    var coins := CoinsOf(w);
    forall i | 0 <= i < |coins| ensures OwnScript(s, coins[i]) {
      assert us[i] in us;
      assert OwnScript(s, us[i]);
    }
    forall i | 0 <= i < |w.addressByInputIndex| ensures HasPath(s, w, i) {
      var q := PathOfInput(p, ys, us, payload, i);
      assert CalculateAddressPath(s.IsMultisig(), w.addressByInputIndex[i]) == Ok(q);
    }
  }

  /** The change address is the wallet's. */
  ghost predicate ChangeIsOurs(s: Scheme, r: Request) {
    Derived(s, r.changeWallet) == Ok(r.change)
  }

  lemma SplitIsPrepared(s: Scheme, p: Params, r: Request, coins: seq<Utxo>)
    requires SplitOf(p, r, coins).Ok? && AllOwn(s, coins) && p.isMultisig == s.IsMultisig()
    ensures Prepared(s, SplitOf(p, r, coins).value)
    ensures ChangeIsOurs(s, r) ==> OwnScript(s, MergeCoin(r)(SplitOf(p, r, coins).value))
  {
    hide EstimateFee, Generated, Prepared, AllOwn, PayToAddressScript, IdOf;
    var total := SumOf(Amount, coins);
    var fee := if coins == [] then 0 else EstimateFee(p, coins, r.rate, r.maxFee, total, []).value;
    var payments := [Payment(r.change, total - fee)];
    GeneratedIsPrepared(s, p, payments, coins, []);
    if ChangeIsOurs(s, r) {
      PaysChange(s, p, r, payments, coins);
    }
  }

  lemma PaysChange(s: Scheme, p: Params, r: Request, ys: seq<Payment>, us: seq<Utxo>)
    requires Generated(p, ys, us, []).Ok? && |ys| == 1 && ys[0].address == r.change && ChangeIsOurs(s, r)
    ensures OwnScript(s, MergeCoin(r)(Generated(p, ys, us, []).value))
  {
    hide Derived, PayToAddressScript, IdOf, Generated;
    GeneratedShape(p, ys, us, []);
    hide IsBuilt;
    var w := Generated(p, ys, us, []).value;
    assert w.Body().outputs == Map(OutputFor, ys);
  }

  lemma SliceIsOwn(s: Scheme, w: Transfer, k: nat, j: nat)
    requires Prepared(s, w)
    ensures AllOwn(s, SliceNo(w, k, j))
  {
    SliceBounds(w, k, j);
  }

  ghost predicate AllPrepared(s: Scheme, ts: seq<Transfer>) {
    forall t :: t in ts ==> Prepared(s, t)
  }

  lemma {:induction false} SplitsArePrepared(s: Scheme, p: Params, r: Request, w: Transfer, k: nat, i: nat)
    requires Prepared(s, w) && Splits(p, r, w, k, i).Ok? && p.isMultisig == s.IsMultisig() && ChangeIsOurs(s, r)
    ensures AllPrepared(s, Splits(p, r, w, k, i).value)
    ensures AllOwn(s, Map(MergeCoin(r), Splits(p, r, w, k, i).value))
  {
    hide Prepared, SplitOf, CheckFeeRate, Splits, MergeCoin, ChangeIsOurs, SliceNo, OwnScript;
    PreparedIsAligned(s, w);
    SplitsAre(p, r, w, k, i);
    var ss := Splits(p, r, w, k, i).value;
    if i > 0 {
      SplitsArePrepared(s, p, r, w, k, i - 1);
      SliceIsOwn(s, w, k, i - 1);
      SplitIsPrepared(s, p, r, SliceNo(w, k, i - 1));
      assert ss == ss[..i - 1] + [ss[i - 1]];
      assert Map(MergeCoin(r), ss) == Map(MergeCoin(r), ss[..i - 1]) + [MergeCoin(r)(ss[i - 1])];
    }
  }

  lemma PreparedIsAligned(s: Scheme, w: Transfer)
    requires Prepared(s, w)
    ensures Aligned(w)
  {
  }

  lemma MergeIsPrepared(s: Scheme, c: Context, score: nat, splits: seq<Transfer>, w: Transfer)
    requires w.Body().inputs != [] && Merge(c, score, splits, w).Ok? && c.p.isMultisig == s.IsMultisig()
    requires AllOwn(s, Map(MergeCoin(c.r), splits)) && AllOwn(s, c.index)
    ensures Prepared(s, Merge(c, score, splits, w).value.tx)
  {
    hide Merge, Generated, OwnScript, Prepared, MergeCoin, MoreUtxos, MergePayments, MergeFee;
    var m := Merge(c, score, splits, w).value;
    var available, sent := MergeShape(c, score, splits, w);
    if available < sent {
      ExtrasAreSpare(c, score, w, sent - available);
    }
    var coins := Map(MergeCoin(c.r), splits) + m.extras;
    GeneratedIsPrepared(s, c.p, MergePayments(c.r, available, sent), coins, w.Body().payload);
  }

  /** Every transaction of a batch is prepared for the signer, at every level. */
  lemma {:induction false} BatchIsPrepared(s: Scheme, fuel: nat, c: Context, scores: nat -> nat, level: nat,
                                           w: Transfer)
    requires Prepared(s, w) && AllOwn(s, c.index) && c.p.isMultisig == s.IsMultisig() && ChangeIsOurs(s, c.r)
    requires Compound(fuel, c, scores, level, w).Ok?
    ensures AllPrepared(s, Compound(fuel, c, scores, level, w).value)
    decreases fuel
  {
    hide Compound, AllExtras, StepOf, Prepared, AllOwn, Merge, Splits, SplitCounts, CheckFeeRate, ChangeIsOurs;
    PreparedIsAligned(s, w);
    var step := StepResult(fuel, c, scores, level, w);
    if step.Light? {
      LightBatch(fuel, c, scores, level, w);
    } else {
      var k := HeavyBatch(fuel, c, scores, level, w);
      SplitsArePrepared(s, c.p, c.r, w, k, |step.splits|);
      MergeIsPrepared(s, c, scores(level), step.splits, w);
      BatchIsPrepared(s, fuel - 1, c, scores, level + 1, step.merged.tx);
    }
  }

  /** A prepared transaction of a single-key wallet is signed in full whenever it is signed. */
  lemma PreparedSignsFully(g: Signer, s: Scheme, keys: seq<Key>, t: Transfer)
    requires SingleKey(g, s, keys) && Prepared(s, t)
    ensures SignedOf(g, t, keys).Ok? ==> SignedOf(g, t, keys).value.Fully?
  {
    hide SignedOf, CalculateAddressPath;
    forall i | 0 <= i < |t.Entries()| ensures HasSomeKey(g, t, keys, i) {
      KeyOfInput(g, s, keys, t, i);
    }
    SignsFully(g, t, keys);
  }

  lemma KeyOfInput(g: Signer, s: Scheme, keys: seq<Key>, t: Transfer, i: nat)
    requires SingleKey(g, s, keys) && Prepared(s, t) && i < |t.Entries()|
    ensures HasSomeKey(g, t, keys, i)
  {
    hide CalculateAddressPath;
    assert CoinsOf(t)[i] == CoinAt(t, i);
    assert OwnScript(s, CoinsOf(t)[i]);
    assert HasPath(s, t, i);
    var path :| path in t.derivationPaths && CalculateAddressPath(s.IsMultisig(), t.addressByInputIndex[i]) == Ok(path);
    assert IsKeyAt(g, s, keys[0], path);
    assert HasKey(g, t, keys, i, keys[0], path);
  }

  /* ----- a signed batch ----- */

  /** `v` is `w` with signature scripts, and perhaps with another word on how complete they are. */
  ghost predicate SignedFrom(w: Transfer, v: Transfer) {
    && SameButScripts(w.transaction.inner, v.transaction.inner)
    && v.addressByInputIndex == w.addressByInputIndex && v.addressByOutputIndex == w.addressByOutputIndex
  }

  ghost predicate AllSignedFrom(ws: seq<Transfer>, vs: seq<Transfer>) {
    |vs| == |ws| && forall i :: 0 <= i < |ws| ==> SignedFrom(ws[i], vs[i])
  }

  lemma {:induction false} BatchSigned(g: Signer, keys: seq<Key>, ws: seq<Transfer>)
    requires AllSigned(g, keys, ws).Ok?
    ensures AllSignedFrom(ws, AllSigned(g, keys, ws).value)
  {
    hide SignedOf, SameButScripts;
    if ws != [] {
      BatchSigned(g, keys, ws[1..]);
      SigningKeepsTheRest(g, ws[0], keys);
      var vs := AllSigned(g, keys, ws).value;
      assert SignedFrom(ws[0], vs[0]);
      assert vs[1..] == AllSigned(g, keys, ws[1..]).value;
      forall i | 0 <= i < |ws| ensures SignedFrom(ws[i], vs[i]) {
        if i > 0 {
          assert ws[i] == ws[1..][i - 1] && vs[i] == vs[1..][i - 1];
        }
      }
    }
  }

  /** A single-key wallet's prepared batch comes out fully signed throughout. */
  lemma {:induction false} BatchSignsFully(g: Signer, s: Scheme, keys: seq<Key>, ws: seq<Transfer>)
    requires SingleKey(g, s, keys) && AllPrepared(s, ws) && AllSigned(g, keys, ws).Ok?
    ensures forall v :: v in AllSigned(g, keys, ws).value ==> v.transaction.Fully?
  {
    hide SignedOf, Prepared, SingleKey;
    if ws != [] {
      PreparedSignsFully(g, s, keys, ws[0]);
      BatchSignsFully(g, s, keys, ws[1..]);
    }
  }

  lemma SignedSpendsTheSame(w: Transfer, v: Transfer)
    requires SignedFrom(w, v)
    ensures Spends(v.Body()) == Spends(w.Body()) && v.Body().outputs == w.Body().outputs
    ensures IdOf(v.Body()) == IdOf(w.Body())
    ensures v.Entries() == w.Entries() && v.addressByOutputIndex == w.addressByOutputIndex
    ensures |v.Body().inputs| == |w.Body().inputs|
    ensures forall i :: 0 <= i < |w.Body().inputs| ==>
      v.Body().inputs[i].previousOutpoint == w.Body().inputs[i].previousOutpoint
  {
    forall i | 0 <= i < |w.Body().inputs|
      ensures v.Body().inputs[i].previousOutpoint == w.Body().inputs[i].previousOutpoint
    {
      assert Unsigned(v.Body().inputs[i]).previousOutpoint == Unsigned(w.Body().inputs[i]).previousOutpoint;
    }
    assert Spends(v.Body()) == Spends(w.Body());
  }

  lemma {:induction false} OwnedTheSame(w: Transfer, v: Transfer, owner: Owner, n: nat)
    requires SignedFrom(w, v) && n <= |w.Body().outputs| && n <= |w.addressByOutputIndex|
    ensures OwnedOutputs(v, owner, n) == OwnedOutputs(w, owner, n)
    ensures ExternalValue(v, owner, n) == ExternalValue(w, owner, n)
  {
    SignedSpendsTheSame(w, v);
    hide SignedFrom, Spends, IdOf;
    if n > 0 {
      OwnedTheSame(w, v, owner, n - 1);
    }
  }

  /** The ledger cannot tell a signed transaction from the unsigned one. */
  lemma SignedAppliesTheSame(m: Coins, w: Transfer, v: Transfer, owner: Owner)
    requires SignedFrom(w, v)
    ensures CanApply(m, v) <==> CanApply(m, w)
    ensures WellFormed(v) <==> WellFormed(w)
    ensures EntriesMatch(m, v) <==> EntriesMatch(m, w)
    ensures CanApply(m, w) ==> Applied(m, v, owner) == Applied(m, w, owner)
    ensures WellFormed(w) ==> Ledger.External(v, owner) == Ledger.External(w, owner)
    ensures Fee(v) == Fee(w)
  {
    SignedSpendsTheSame(w, v);
    hide SignedFrom, Spends, IdOf, NoDup, SumOf;
    if |w.Body().outputs| <= |w.addressByOutputIndex| {
      OwnedTheSame(w, v, owner, |w.Body().outputs|);
    }
  }

  lemma {:induction false} SignedBatchRuns(m: Coins, ws: seq<Transfer>, vs: seq<Transfer>, owner: Owner)
    requires GoodRun(m, ws, owner) && AllWellFormed(ws) && AllSignedFrom(ws, vs)
    ensures GoodRun(m, vs, owner) && AllWellFormed(vs)
    ensures Replay(m, vs, owner) == Replay(m, ws, owner)
    ensures TotalFees(vs) == TotalFees(ws) && TotalExternal(vs, owner) == TotalExternal(ws, owner)
    decreases ws
  {
    hide Applied, CanApply, EntriesMatch, Ledger.External, Fee, SignedFrom, WellFormed;
    if ws != [] {
      assert AllWellFormed(ws[1..]) && AllSignedFrom(ws[1..], vs[1..]);
      assert WellFormed(ws[0]) && SignedFrom(ws[0], vs[0]);
      SignedAppliesTheSame(m, ws[0], vs[0], owner);
      IsAligned(m, ws[0]);
      IsAligned(m, vs[0]);
      SignedBatchRuns(Applied(m, ws[0], owner), ws[1..], vs[1..], owner);
      assert vs == [vs[0]] + vs[1..];
    }
  }

  /* ----- the wallet's own outputs are locked by its own scripts ----- */

  /** Different addresses have different texts. */
  ghost predicate TextTellsAddresses(s: Scheme) {
    forall a, b :: s.text(a) == s.text(b) ==> a == b
  }

  ghost predicate OwnCoins(s: Scheme, m: Coins) {
    forall c :: c in m ==> OwnScript(s, m[c])
  }

  lemma OwnCoinsOfIndex(s: Scheme, index: seq<Utxo>, m: Coins)
    requires OwnCoins(s, m) && forall u :: u in index ==> u.outpoint in m && m[u.outpoint] == u
    ensures AllOwn(s, index)
  {
  }

  lemma AppliedIsOwn(s: Scheme, book: AddressSet, m: Coins, t: Transfer)
    requires OwnCoins(s, m) && PaysPayees(t) && Genuine(s, book) && TextTellsAddresses(s)
    ensures OwnCoins(s, Applied(m, t, OwnerIn(book, s.text)))
  {
    hide PayToAddressScript, CalculateAddressPath;
    var owner := OwnerIn(book, s.text);
    var n := Applied(m, t, owner);
    forall c | c in n ensures OwnScript(s, n[c]) {
      if c in Created(t, owner) {
        var a := t.addressByOutputIndex[c.index];
        var w := owner(a).value;
        assert n[c] == NewCoin(t, c.index, w);
        assert TextOf(s, w) == Ok(s.text(a));
        assert Derived(s, w).value == a;
      } else {
        assert c in m && n[c] == m[c];
      }
    }
  }

  /** Whatever part of a batch has gone through, every coin the wallet holds is locked by the script
      of the address it is booked under. */
  lemma {:induction false} ReplayIsOwn(s: Scheme, book: AddressSet, m: Coins, ts: seq<Transfer>)
    requires OwnCoins(s, m) && (forall t :: t in ts ==> PaysPayees(t)) && Genuine(s, book) && TextTellsAddresses(s)
    requires Replay(m, ts, OwnerIn(book, s.text)).Some?
    ensures OwnCoins(s, Replay(m, ts, OwnerIn(book, s.text)).value)
    decreases ts
  {
    hide OwnCoins, Genuine, TextTellsAddresses, PaysPayees, Applied, OwnerIn;
    if ts != [] {
      IsAligned(m, ts[0]);
      AppliedIsOwn(s, book, m, ts[0]);
      ReplayIsOwn(s, book, Applied(m, ts[0], OwnerIn(book, s.text)), ts[1..]);
    }
  }

  lemma SignedPays(w: Transfer, v: Transfer)
    requires SignedFrom(w, v) && PaysPayees(w)
    ensures PaysPayees(v)
  {
  }

  /* ----- the room that estimates leave for signatures ----- */

  /** With 66 bytes set aside for a signature, which is what a signature script takes, a transaction
      signed in full is no larger than its mass was worked out for, and exactly that large when one
      signature unlocks an input. */
  lemma SignaturesFit(p: Params, unsigned: Body, signed: Body)
    requires Uniform(p, unsigned) && p.signatureSize == 66
    requires |signed.inputs| == |unsigned.inputs| && signed == unsigned.(inputs := signed.inputs)
    requires forall i :: i in signed.inputs ==> |i.signatureScript| == 66
    ensures SerializedSize(p, signed) * p.transientFactor <= TransientMass(p, unsigned)
    ensures p.minimumSignatures <= 1 ==> SerializedSize(p, signed) * p.transientFactor == TransientMass(p, unsigned)
  {
    hide SumOf;
    var n := |unsigned.inputs|;
    SumOfUniform(InputSize(p), unsigned.inputs, p.inputSize);
    SumOfUniform(InputSize(p), signed.inputs, p.inputSize + 66);
    TimesPlus(n, p.inputSize, 66);
    var room := 66 * Max(p.minimumSignatures, 1);
    TimesMonotone(66, room, n);
    TimesMonotone(SerializedSize(p, signed), SerializedSize(p, unsigned) + room * n, p.transientFactor);
  }
}
