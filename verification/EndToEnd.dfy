/** From a send request to the wallet's coins after it (daemon/src/service/send.rs): choose, build,
    compound, sign, submit, update the index. */
module EndToEnd {
  import opened Wrappers
  import opened Sequences
  import opened Model
  import opened AddressBook
  import opened Mass
  import opened Generate
  import opened Selection
  import opened SelectionTheorems
  import opened Compounding
  import opened CompoundingTheorems
  import opened BatchTheorems
  import opened ExtrasTheorems
  import opened Ledger
  import opened SplitRun
  import opened UtxoIndex
  import opened Sign
  import opened SigningTheorems
  import opened Submit

  /* ----- the original transaction ----- */

  /** The coins a request may draw on are coins of the index. */
  ghost predicate DrawsOnIndex(r: Request, index: seq<Utxo>) {
    NoDup(Outpoints(r.preselected)) && forall u :: u in r.preselected ==> u in index
  }

  lemma AvailableIsHeld(r: Request, index: seq<Utxo>, m: Coins)
    requires Agrees(index, m) && DrawsOnIndex(r, index)
    ensures NoDup(Outpoints(Available(r, index)))
    ensures forall u :: u in Available(r, index) ==> u in index && u.outpoint in m && m[u.outpoint] == u
  {
  }

  /** The original transaction spends coins the wallet holds, pays what was asked, and is ready for
      everything that follows. */
  lemma OriginalIsReady(s: Scheme, p: Params, r: Request, index: seq<Utxo>, score: nat, m: Coins)
    requires Agrees(index, m) && DrawsOnIndex(r, index) && p.isMultisig == s.IsMultisig()
    requires Select(p, r, index, score).Ok? && Select(p, r, index, score).value.utxos != []
    requires Original(p, r, Select(p, r, index, score).value).Ok?
    ensures
      var selected := Select(p, r, index, score).value;
      var w := Original(p, r, selected).value;
      && Spendable(m, w) && Ledger.WellFormed(w) && AtTheTop(Context(p, r, index, selected.utxos), w, m)
      && Aligned(w) && Uniform(p, w.Body()) && PaysAsAsked(r, w) && w.Body().inputs != []
      && (AllOwn(s, index) ==> Prepared(s, w))
  {
    hide Select, Agrees, Generated, Prepared, Candidates;
    AvailableIsHeld(r, index, m);
    SelectionIsSound(p, r, index, score);
    var selected := Select(p, r, index, score).value;
    SelectedAreHeld(selected.utxos, Available(r, index), index, m);
    OriginalSpends(p, r, selected, m);
    AgreesAtTheTop(Context(p, r, index, selected.utxos), Original(p, r, selected).value, m);
    if AllOwn(s, index) {
      GeneratedIsPrepared(s, p, OriginalPayments(r, selected), selected.utxos, r.payload);
    }
  }

  lemma SelectedAreHeld(us: seq<Utxo>, available: seq<Utxo>, index: seq<Utxo>, m: Coins)
    requires IsSubsequence(us, available)
    requires forall u :: u in available ==> u in index && u.outpoint in m && m[u.outpoint] == u
    ensures forall u :: u in us ==> u in index && u.outpoint in m && m[u.outpoint] == u
  {
    SubsequenceMembers(us, available);
  }

  lemma OriginalSpends(p: Params, r: Request, selected: Selected, m: Coins)
    requires Original(p, r, selected).Ok? && selected.utxos != [] && NoDup(Outpoints(selected.utxos))
    requires forall u :: u in selected.utxos ==> u.outpoint in m && m[u.outpoint] == u
    requires r.isSendAll ==> selected.change == 0
    requires !r.isSendAll ==> selected.received == r.amount
    ensures
      var w := Original(p, r, selected).value;
      && Spendable(m, w) && Ledger.WellFormed(w) && Outpoints(selected.utxos) == Spends(w.Body())
      && Aligned(w) && Uniform(p, w.Body()) && PaysAsAsked(r, w) && w.Body().inputs != []
  {
    hide Generated, Uniform;
    var ys, w := OriginalPayments(r, selected), Original(p, r, selected).value;
    GeneratedShape(p, ys, selected.utxos, r.payload);
    assert w.Body().outputs == Map(OutputFor, ys) && w.addressByOutputIndex == Map(PayeeOf, ys);
    assert ys[0] == Payment(r.to, selected.received);
    forall i | 0 <= i < |selected.utxos| ensures m[selected.utxos[i].outpoint] == selected.utxos[i] {
      assert selected.utxos[i] in selected.utxos;
    }
    EntriesFollowCoins(m, w, selected.utxos);
    assert |Spends(w.Body())| > 0;
  }

  lemma AgreesAtTheTop(c: Context, w: Transfer, m: Coins)
    requires Agrees(c.index, m) && Outpoints(c.selected) == Spends(w.Body())
    requires forall u :: u in c.selected ==> u in c.index
    ensures AtTheTop(c, w, m)
  {
  }

  /* ----- the batch ----- */

  /** What holds of the wallet when a request comes in: the index is valid, none of its coins
      descends from another, each is locked by its own address's script. */
  ghost predicate Healthy(s: Scheme, index: seq<Utxo>, m: Coins) {
    Agrees(index, m) && Unspent(m.Keys) && OwnCoins(s, m)
  }

  lemma HealthyIndexIsOwn(s: Scheme, index: seq<Utxo>, m: Coins)
    requires Healthy(s, index, m)
    ensures AllOwn(s, index)
  {
    hide OwnScript;
    OwnCoinsOfIndex(s, index, m);
  }

  /** Everything proved about a batch the wallet made for a request. */
  ghost predicate GoodForRequest(s: Scheme, c: Context, w: Transfer, m: Coins, xs: seq<Utxo>, batch: seq<Transfer>,
                                 owner: Owner) {
    && BatchOutcome(m, w, xs, batch, owner) && GoodBatch(c, w, batch) && Balanced(w, xs, batch)
    && AllPrepared(s, batch)
  }

  /** Select, build, compound: the batch runs over the wallet's coins, pays what was asked, weighs
      little enough, conserves value and can be signed, unless two levels added the same coin. */
  lemma RequestMakesGoodBatch(s: Scheme, p: Params, r: Request, index: seq<Utxo>, score: nat, m: Coins, owner: Owner,
                              fuel: nat, scores: nat -> nat, batch: seq<Transfer>)
    requires Healthy(s, index, m) && DrawsOnIndex(r, index) && p.isMultisig == s.IsMultisig() && p.Valid()
    requires ChangeIsOurs(s, r) && owner(r.change).Some?
    requires Select(p, r, index, score).Ok? && Select(p, r, index, score).value.utxos != []
    requires Original(p, r, Select(p, r, index, score).value).Ok?
    requires
      var selected := Select(p, r, index, score).value;
      var c, w := Context(p, r, index, selected.utxos), Original(p, r, selected).value;
      && Aligned(w) && Compound(fuel, c, scores, 0, w) == Ok(batch)
      && NoDup(Outpoints(AllExtras(fuel, c, scores, 0, w)))
    ensures
      var selected := Select(p, r, index, score).value;
      var c, w := Context(p, r, index, selected.utxos), Original(p, r, selected).value;
      GoodForRequest(s, c, w, m, AllExtras(fuel, c, scores, 0, w), batch, owner)
  {
    hide Select, Original, Agrees, Unspent, OwnCoins, Compound, AllExtras, Spendable, Ledger.WellFormed, AtTheTop,
      Prepared, PaysAsAsked,
      Uniform, Aligned, BatchOutcome, GoodBatch, Balanced, AllOwn, AllPrepared, ChangeIsOurs, NoDup, DrawsOnIndex;
    var selected := Select(p, r, index, score).value;
    var c, w := Context(p, r, index, selected.utxos), Original(p, r, selected).value;
    HealthyIndexIsOwn(s, index, m);
    OriginalIsReady(s, p, r, index, score, m);
    ExtrasAreHeld(fuel, c, scores, 0, w, m);
    BatchRuns(fuel, c, scores, 0, w, m, owner);
    BatchIsGood(fuel, c, scores, 0, w);
    BatchIsPrepared(s, fuel, c, scores, 0, w);
  }

  /* ----- the batch, signed and submitted ----- */

  /** A signed batch that meets no obstacle but the node's own refusal, wherever it stops. */
  ghost predicate OnlyRefusals(m: Coins, lane: seq<Byte>, replies: Replies, signed: seq<Transfer>, owner: Owner) {
    forall k :: 0 <= k < |signed| ==>
      && Replay(m, signed[..k], owner).Some?
      && Obstacle(Replay(m, signed[..k], owner).value, lane, replies, signed, k) in {None, Some(Rejected)}
  }

  lemma GoodBatchLanes(c: Context, w: Transfer, batch: seq<Transfer>)
    requires GoodBatch(c, w, batch)
    ensures forall t :: t in batch ==> t.Body().subnetworkId == c.p.subnetworkId
  {
    hide CheckFeeRate, ComputeMass, PaysAsAsked;
    forall t | t in batch ensures t.Body().subnetworkId == c.p.subnetworkId {
      var i :| 0 <= i < |batch| && batch[i] == t;
      assert i < |batch| - 1 ==> GoodSplit(c.p, c.r, batch[i]);
    }
  }

  lemma SignedLanes(ws: seq<Transfer>, vs: seq<Transfer>, lane: seq<Byte>)
    requires AllSignedFrom(ws, vs) && forall t :: t in ws ==> t.Body().subnetworkId == lane
    ensures forall v :: v in vs ==> v.Body().subnetworkId == lane
  {
    forall v | v in vs ensures v.Body().subnetworkId == lane {
      var i :| 0 <= i < |vs| && vs[i] == v;
      assert SignedFrom(ws[i], vs[i]) && ws[i] in ws;
    }
  }

  /** Signing a good batch with the wallet's one key: the result still runs, is fully signed, is for
      the configured lane, and lowers the wallet's worth by the same fees and payments. */
  lemma SignedBatchIsSubmittable(g: Signer, s: Scheme, keys: seq<Key>, c: Context, w: Transfer, m: Coins, xs: seq<Utxo>,
                                 batch: seq<Transfer>, owner: Owner, lane: seq<Byte>, replies: Replies)
    requires SingleKey(g, s, keys) && GoodForRequest(s, c, w, m, xs, batch, owner) && Unspent(m.Keys)
    requires AllSigned(g, keys, batch).Ok? && lane == c.p.subnetworkId
    ensures
      var signed := AllSigned(g, keys, batch).value;
      && Clean(m, signed) && GoodRun(m, signed, owner) && OnlyRefusals(m, lane, replies, signed, owner)
      && Replay(m, signed, owner) == Replay(m, batch, owner)
      && TotalFees(signed) == TotalFees(batch)
      && forall v :: v in signed ==> PaysPayees(v)
  {
    var signed := AllSigned(g, keys, batch).value;
    hide AllSigned, SingleKey, GoodBatch, Balanced, AllPrepared, GoodRun, Replay, AllSignedFrom, Unspent, NetEffect,
      Ledger.WellFormed, AllWellFormed, CanApply, OnlyRefusals;
    BatchSigned(g, keys, batch);
    PreparedBatchPays(s, batch, signed);
    BatchSignsFully(g, s, keys, batch);
    SignedBatchRuns(m, batch, signed, owner);
    GoodBatchLanes(c, w, batch);
    SignedLanes(batch, signed, lane);
    MeetsOnlyRefusals(m, lane, replies, signed, owner);
  }

  lemma MeetsOnlyRefusals(m: Coins, lane: seq<Byte>, replies: Replies, signed: seq<Transfer>, owner: Owner)
    requires GoodRun(m, signed, owner)
    requires forall v :: v in signed ==> v.transaction.Fully? && v.Body().subnetworkId == lane
    ensures OnlyRefusals(m, lane, replies, signed, owner)
  {
    hide GoodRun, Replay, CanApply;
    forall k | 0 <= k < |signed|
      ensures Replay(m, signed[..k], owner).Some?
      ensures Obstacle(Replay(m, signed[..k], owner).value, lane, replies, signed, k) in {None, Some(Rejected)}
    {
      GoodRunNeverTraps(m, lane, replies, signed, owner, k);
      assert signed[k] in signed;
    }
  }

  lemma PreparedBatchPays(s: Scheme, ws: seq<Transfer>, vs: seq<Transfer>)
    requires AllPrepared(s, ws) && AllSignedFrom(ws, vs)
    ensures forall v :: v in vs ==> PaysPayees(v)
  {
    hide PaysPayees, SignedFrom;
    forall v | v in vs ensures PaysPayees(v) {
      var i :| 0 <= i < |vs| && vs[i] == v;
      assert SignedFrom(ws[i], vs[i]) && ws[i] in ws;
      SignedPays(ws[i], vs[i]);
    }
  }

  /** Wherever submission stops, the wallet is healthy again and poorer by exactly the fees of what
      went through and what that paid to others. */
  lemma HealthyAfter(s: Scheme, book: AddressSet, m: Coins, signed: seq<Transfer>, accepted: nat, index: seq<Utxo>)
    requires Unspent(m.Keys) && OwnCoins(s, m) && Genuine(s, book) && TextTellsAddresses(s)
    requires GoodRun(m, signed, OwnerIn(book, s.text)) && AllWellFormed(signed) && accepted <= |signed|
    requires forall v :: v in signed ==> PaysPayees(v)
    requires Replay(m, signed[..accepted], OwnerIn(book, s.text)).Some?
    requires var now := Replay(m, signed[..accepted], OwnerIn(book, s.text)).value;
      Agrees(index, now) && Unspent(now.Keys)
    ensures
      var owner := OwnerIn(book, s.text);
      var now := Replay(m, signed[..accepted], owner).value;
      && Healthy(s, index, now) && AllWellFormed(signed[..accepted])
      && Worth(m) == Worth(now) + TotalFees(signed[..accepted]) + TotalExternal(signed[..accepted], owner)
  {
    hide OwnCoins, Agrees, Unspent, GoodRun, Replay, PaysPayees, Genuine, TextTellsAddresses, OwnerIn,
      Ledger.WellFormed;
    PrefixConserves(m, signed, OwnerIn(book, s.text), accepted);
    ReplayIsOwn(s, book, m, signed[..accepted]);
  }

  /** A request that asks for something selects something. */
  lemma SelectsSomething(p: Params, r: Request, index: seq<Utxo>, score: nat)
    requires Select(p, r, index, score).Ok? && (r.isSendAll || r.amount > 0)
    ensures Select(p, r, index, score).value.utxos != []
  {
    assert SumOf(Amount<TxId>, []) == 0;
    if Candidates(p, r, index, score) != [] {
      var n := ChosenPrefix(p, r, index, score);
    }
  }
}
