/** Which coins a refresh takes from the node's answer, said in the answer's own fields; and that no
    payment is built on a transaction of others which the node may yet drop. */
module Incoming {
  import opened Wrappers
  import opened Sequences
  import opened Model
  import opened Ledger
  import opened NodeView
  import opened Selection
  import opened SelectionTheorems
  import opened Compounding
  import opened MempoolReplay
  import opened UtxoIndex

  /** A listed mempool transaction spends `c`. */
  ghost predicate SpentByListed(view: View, c: Coin) {
    exists i, j :: 0 <= i < |view.mempool| && 0 <= j < |view.mempool[i].sending|
      && c in view.mempool[i].sending[j].spends
  }

  lemma ExcludedIff(view: View, c: Coin)
    ensures c in Excluded(view.mempool) <==> SpentByListed(view, c)
  {
    if c in Excluded(view.mempool) {
      var e :| e in view.mempool && c in SpentBy(e.sending);
      var t :| t in e.sending && c in t.spends;
      var i :| 0 <= i < |view.mempool| && view.mempool[i] == e;
      var j :| 0 <= j < |e.sending| && e.sending[j] == t;
      assert c in view.mempool[i].sending[j].spends;
    }
    if SpentByListed(view, c) {
      var i, j :| 0 <= i < |view.mempool| && 0 <= j < |view.mempool[i].sending|
        && c in view.mempool[i].sending[j].spends;
      assert c in SpentBy(view.mempool[i].sending);
    }
  }

  /** `u` is the `i`-th coin the node confirms, at a registered address, bound by no covenant. */
  ghost predicate IsConfirmed(owner: Owner, view: View, i: int, u: Utxo) {
    && 0 <= i < |view.utxos|
    && var x := view.utxos[i];
    && x.address.Some? && owner(x.address.value) == Some(u.address) && x.entry.covenantId == None
    && u.outpoint == x.outpoint && u.entry.amount == x.entry.amount && u.entry.script == x.entry.script
    && u.entry.blockDaaScore == x.entry.blockDaaScore && u.entry.isCoinbase == x.entry.isCoinbase
    && !u.entry.isUnconfirmed
  }

  /** `u` is output `k` of transaction `id`, which pays a registered address and is not confirmed. */
  ghost predicate IsOutput(owner: Owner, id: TxId, outputs: seq<RpcOutput>, k: int, u: Utxo) {
    && 0 <= k < |outputs|
    && var o := outputs[k];
    && o.address.Some? && owner(o.address.value) == Some(u.address)
    && u.outpoint == Outpoint(id, k) && u.entry.amount == o.value && u.entry.script == o.script
    && u.entry.blockDaaScore == 0 && !u.entry.isCoinbase
    && u.entry.isUnconfirmed
  }

  /** `u` is output `k` of the `j`-th transaction listed as paying the `i`-th address. */
  ghost predicate IsIncoming(owner: Owner, view: View, i: int, j: int, k: int, u: Utxo) {
    && 0 <= i < |view.mempool| && 0 <= j < |view.mempool[i].receiving|
    && var t := view.mempool[i].receiving[j];
    t.id.Some? && IsOutput(owner, t.id.value, t.outputs, k, u)
  }

  /* ----- one listing after another ----- */

  lemma ConfirmedFields(owner: Owner, view: View, i: int, u: Utxo)
    requires 0 <= i < |view.utxos| && Confirmed(owner, Excluded(view.mempool))(view.utxos[i]).Ok?
    ensures u in Confirmed(owner, Excluded(view.mempool))(view.utxos[i]).value
      <==> IsConfirmed(owner, view, i, u) && !SpentByListed(view, u.outpoint)
  {
    hide Excluded, SpentByListed;
    ExcludedIff(view, view.utxos[i].outpoint);
    var x := view.utxos[i];
    if IsConfirmed(owner, view, i, u) {
      assert u == WalletUtxo(x.outpoint, FromUtxoEntry(x.entry), owner(x.address.value).value);
    }
  }

  lemma {:induction false} ReceivedFields(owner: Owner, exclude: set<Coin>, id: TxId, outputs: seq<RpcOutput>, i: nat)
    requires i <= |outputs|
    ensures Received(owner, exclude, id, outputs, i).Ok? <==>
      forall k :: i <= k < |outputs| ==> outputs[k].address.Some?
    ensures Received(owner, exclude, id, outputs, i).Ok? ==>
      forall u :: u in Received(owner, exclude, id, outputs, i).value <==>
        u.outpoint !in exclude && exists k :: k >= i && IsOutput(owner, id, outputs, k, u)
    decreases |outputs| - i
  {
    if i < |outputs| {
      ReceivedFields(owner, exclude, id, outputs, i + 1);
      var now, rest := Received(owner, exclude, id, outputs, i), Received(owner, exclude, id, outputs, i + 1);
      if now.Ok? {
        forall u ensures u in now.value <==>
          u.outpoint !in exclude && exists k :: k >= i && IsOutput(owner, id, outputs, k, u)
        {
          if u in now.value && u !in rest.value {
            assert IsOutput(owner, id, outputs, i, u);
          }
          if k :| k >= i && IsOutput(owner, id, outputs, k, u) {
            if k == i && u.outpoint !in exclude {
              assert u == Unconfirmed(id, i, outputs[i], owner(outputs[i].address.value).value);
            }
          }
        }
      }
    }
  }

  lemma TransactionFields(owner: Owner, exclude: set<Coin>, t: RpcTransaction)
    ensures ReceivedBy(owner, exclude)(t).Ok? <==>
      t.id.Some? && forall k :: 0 <= k < |t.outputs| ==> t.outputs[k].address.Some?
    ensures ReceivedBy(owner, exclude)(t).Ok? ==>
      forall u :: u in ReceivedBy(owner, exclude)(t).value <==>
        u.outpoint !in exclude && exists k :: IsOutput(owner, t.id.value, t.outputs, k, u)
  {
    hide Received;
    if t.id.Some? {
      ReceivedFields(owner, exclude, t.id.value, t.outputs, 0);
    }
  }

  /* ----- the whole answer ----- */

  /** Every coin that is neither spent nor bound sits at a registered address. */
  ghost predicate ConfirmedReadable(owner: Owner, view: View) {
    forall i :: 0 <= i < |view.utxos| ==> ConfirmedReadableAt(owner, view, view.utxos[i])
  }

  ghost predicate ConfirmedReadableAt(owner: Owner, view: View, x: RpcUtxo) {
    !SpentByListed(view, x.outpoint) && x.entry.covenantId.None? ==> x.address.Some? && owner(x.address.value).Some?
  }

  /** Every transaction listed as paying the wallet names its id, and each of its outputs an address. */
  ghost predicate MempoolReadable(view: View) {
    forall i, j :: 0 <= i < |view.mempool| && 0 <= j < |view.mempool[i].receiving| ==>
      TransactionReadable(view.mempool[i].receiving[j])
  }

  ghost predicate TransactionReadable(t: RpcTransaction) {
    t.id.Some? && forall k :: 0 <= k < |t.outputs| ==> t.outputs[k].address.Some?
  }

  lemma ConfirmedAre(owner: Owner, view: View)
    ensures
      var confirmed := Collect(Confirmed(owner, Excluded(view.mempool)), view.utxos);
      && (confirmed.Ok? <==> ConfirmedReadable(owner, view))
      && (confirmed.Ok? ==> forall u :: u in confirmed.value <==>
            !SpentByListed(view, u.outpoint) && exists i :: IsConfirmed(owner, view, i, u))
  {
    hide Collect, Excluded, SpentByListed, IsConfirmed;
    var f := Confirmed(owner, Excluded(view.mempool));
    CollectIff(f, view.utxos);
    forall i | 0 <= i < |view.utxos| ensures f(view.utxos[i]).Ok? <==> ConfirmedReadableAt(owner, view, view.utxos[i]) {
      ExcludedIff(view, view.utxos[i].outpoint);
    }
    var confirmed := Collect(f, view.utxos);
    if confirmed.Ok? {
      forall u ensures u in confirmed.value <==>
        !SpentByListed(view, u.outpoint) && exists i :: IsConfirmed(owner, view, i, u)
      {
        if i :| Yields(f, view.utxos, i, u) {
          ConfirmedFields(owner, view, i, u);
        }
        if i :| IsConfirmed(owner, view, i, u) {
          InRange(owner, view, i, u);
          ConfirmedFields(owner, view, i, u);
          assert !SpentByListed(view, u.outpoint) ==> Yields(f, view.utxos, i, u);
        }
      }
    }
  }

  lemma InRange(owner: Owner, view: View, i: int, u: Utxo)
    requires IsConfirmed(owner, view, i, u)
    ensures 0 <= i < |view.utxos|
  {
  }

  lemma ListingAre(owner: Owner, view: View, i: int)
    requires 0 <= i < |view.mempool|
    ensures
      var listed := ReceivedAt(owner, Excluded(view.mempool))(view.mempool[i]);
      && (listed.Ok? <==> forall j :: 0 <= j < |view.mempool[i].receiving| ==>
                            TransactionReadable(view.mempool[i].receiving[j]))
      && (listed.Ok? ==> forall u :: u in listed.value <==>
            !SpentByListed(view, u.outpoint) && exists j, k :: IsIncoming(owner, view, i, j, k, u))
  {
    hide Collect, Excluded, SpentByListed, IsOutput;
    var f, ts := ReceivedBy(owner, Excluded(view.mempool)), view.mempool[i].receiving;
    CollectIff(f, ts);
    forall j | 0 <= j < |ts| ensures f(ts[j]).Ok? <==> TransactionReadable(ts[j]) {
      TransactionFields(owner, Excluded(view.mempool), ts[j]);
    }
    var listed := Collect(f, ts);
    if listed.Ok? {
      forall u ensures u in listed.value <==>
        !SpentByListed(view, u.outpoint) && exists j, k :: IsIncoming(owner, view, i, j, k, u)
      {
        ExcludedIff(view, u.outpoint);
        if j :| Yields(f, ts, j, u) {
          TransactionFields(owner, Excluded(view.mempool), ts[j]);
          var k :| IsOutput(owner, ts[j].id.value, ts[j].outputs, k, u);
          assert IsIncoming(owner, view, i, j, k, u);
        }
        if j, k :| IsIncoming(owner, view, i, j, k, u) {
          TransactionFields(owner, Excluded(view.mempool), ts[j]);
          assert !SpentByListed(view, u.outpoint) ==> Yields(f, ts, j, u);
        }
      }
    }
  }

  lemma IncomingAre(owner: Owner, view: View)
    ensures
      var received := Collect(ReceivedAt(owner, Excluded(view.mempool)), view.mempool);
      && (received.Ok? <==> MempoolReadable(view))
      && (received.Ok? ==> forall u :: u in received.value <==>
            !SpentByListed(view, u.outpoint) && exists i, j, k :: IsIncoming(owner, view, i, j, k, u))
  {
    hide Collect, Excluded, SpentByListed, ReceivedAt;
    var f := ReceivedAt(owner, Excluded(view.mempool));
    CollectIff(f, view.mempool);
    forall i | 0 <= i < |view.mempool| ensures f(view.mempool[i]).Ok? <==>
      forall j :: 0 <= j < |view.mempool[i].receiving| ==> TransactionReadable(view.mempool[i].receiving[j])
    {
      ListingAre(owner, view, i);
    }
    var received := Collect(f, view.mempool);
    if received.Ok? {
      forall u ensures u in received.value <==>
        !SpentByListed(view, u.outpoint) && exists i, j, k :: IsIncoming(owner, view, i, j, k, u)
      {
        if i :| Yields(f, view.mempool, i, u) {
          ListingAre(owner, view, i);
        }
        if i, j, k :| IsIncoming(owner, view, i, j, k, u) {
          ListingAre(owner, view, i);
          assert !SpentByListed(view, u.outpoint) ==> Yields(f, view.mempool, i, u);
        }
      }
    }
  }

  /** A refresh fails exactly on an answer it cannot read. What it gathers otherwise is exactly: the coins
      the node confirms, with the amount, script, score and origin it reports, and the outputs of
      transactions listed as paying the wallet, unconfirmed; without those that a listed one spends. */
  lemma GatheredAre(owner: Owner, view: View)
    ensures Gathered(owner, view).Ok? <==> ConfirmedReadable(owner, view) && MempoolReadable(view)
    ensures Gathered(owner, view).Ok? ==>
      forall u :: u in Gathered(owner, view).value <==>
        && !SpentByListed(view, u.outpoint)
        && ((exists i :: IsConfirmed(owner, view, i, u)) || exists i, j, k :: IsIncoming(owner, view, i, j, k, u))
  {
    hide Collect, Excluded, SpentByListed, ConfirmedReadable, MempoolReadable, IsConfirmed, IsIncoming;
    ConfirmedAre(owner, view);
    IncomingAre(owner, view);
  }

  /* ----- after the own transactions have been replayed ----- */

  /** `u` is output `i` of `w`, back at the wallet: with its value and script, spendable at once. */
  ghost predicate IsOwnOutput(owner: Owner, w: Transfer, i: int, u: Utxo) {
    && 0 <= i < |w.Body().outputs| && i < |w.addressByOutputIndex|
    && var o := w.Body().outputs[i];
    && owner(w.addressByOutputIndex[i]) == Some(u.address)
    && u.outpoint == Outpoint(IdOf(w.Body()), i) && u.entry.amount == o.value && u.entry.script == o.script
    && u.entry.blockDaaScore == 0 && !u.entry.isCoinbase && !u.entry.isUnconfirmed
  }

  ghost predicate IsOwn(owner: Owner, ws: seq<Transfer>, u: Utxo) {
    exists w, i :: w in ws && IsOwnOutput(owner, w, i, u)
  }

  /** Applying a transaction removes what it spends and adds its outputs to the wallet, and does nothing
      else. */
  lemma AppliedIs(m: Coins, w: Transfer, owner: Owner, c: Coin)
    requires |w.Body().outputs| <= |w.addressByOutputIndex|
    ensures
      var after := Applied(m, w, owner);
      && (c in after && (c !in m || after[c] != m[c]) ==> exists i :: IsOwnOutput(owner, w, i, after[c]))
      && (c in m && c !in Spends(w.Body()) ==> c in after)
      && (forall i :: 0 <= i < |w.Body().outputs| && owner(w.addressByOutputIndex[i]).Some? ==>
            var own := Outpoint(IdOf(w.Body()), i);
            own in after && IsOwnOutput(owner, w, i, after[own]))
      && (c in Spends(w.Body()) && c.transactionId != IdOf(w.Body()) ==> c !in after)
  {
    hide IdOf;
    var after := Applied(m, w, owner);
    if c in Created(w, owner) {
      assert IsOwnOutput(owner, w, c.index, after[c]);
    }
  }

  lemma {:induction false} KeptCoinsAre(m: Coins, ws: seq<Transfer>, owner: Owner, c: Coin)
    requires AllReplayable(ws) && c in Kept(m, ws, owner).1
    ensures
      var (kept, coins) := Kept(m, ws, owner);
      (c in m && coins[c] == m[c]) || IsOwn(owner, kept, coins[c])
    decreases ws
  {
    hide Applied, IsOwnOutput;
    if ws != [] {
      if Present(m, ws[0]) {
        assert Replayable(ws[0]);
        var next := Applied(m, ws[0], owner);
        KeptCoinsAre(next, ws[1..], owner, c);
        AppliedIs(m, ws[0], owner, c);
        var (rest, coins) := Kept(next, ws[1..], owner);
        if IsOwn(owner, rest, coins[c]) {
          var w, i :| w in rest && IsOwnOutput(owner, w, i, coins[c]);
          assert w in [ws[0]] + rest;
        } else if !(c in m && coins[c] == m[c]) {
          var i :| IsOwnOutput(owner, ws[0], i, next[c]);
          assert ws[0] in [ws[0]] + rest;
        }
      } else {
        KeptCoinsAre(m, ws[1..], owner, c);
      }
    }
  }

  /** The coins after a refresh: those of the answer, and those of the own transactions put back. */
  ghost predicate AfterRefresh(owner: Owner, view: View, ws: seq<Transfer>, kept: seq<Transfer>, coins: Coins)
    requires AllReplayable(ws)
  {
    Gathered(owner, view).Ok? && Kept(ByOutpoint(Gathered(owner, view).value), ws, owner) == (kept, coins)
  }

  lemma RefreshedCoinsAre(owner: Owner, view: View, ws: seq<Transfer>, kept: seq<Transfer>, coins: Coins, c: Coin)
    requires AllReplayable(ws) && AfterRefresh(owner, view, ws, kept, coins) && c in coins
    ensures
      var u := coins[c];
      || (exists i :: IsConfirmed(owner, view, i, u))
      || (exists i, j, k :: IsIncoming(owner, view, i, j, k, u))
      || IsOwn(owner, kept, u)
  {
    hide Gathered, Kept, IsConfirmed, IsIncoming, IsOwn, SpentByListed;
    var gathered := Gathered(owner, view).value;
    KeptCoinsAre(ByOutpoint(gathered), ws, owner, c);
    ByOutpointHolds(gathered);
    GatheredAre(owner, view);
  }

  /** A coin the node merely lists as incoming, and that is not an own transaction's output, is no
      candidate of a selection at any score, nor a coin a merge may add: a payment spends only confirmed
      coins and outputs of the wallet's own transactions. */
  lemma OnlyConfirmedIsSpent(owner: Owner, view: View, ws: seq<Transfer>, kept: seq<Transfer>, coins: Coins,
                             c: Context, score: nat, u: Utxo)
    requires AllReplayable(ws) && AfterRefresh(owner, view, ws, kept, coins)
    requires forall x :: x in c.index ==> x.outpoint in coins && coins[x.outpoint] == x
    requires forall x :: x in c.r.preselected ==> x in c.index
    requires u in Candidates(c.p, c.r, c.index, score) || u in Filter(Spare(c, score), c.index)
    ensures (exists i :: IsConfirmed(owner, view, i, u)) || IsOwn(owner, kept, u)
  {
    hide AfterRefresh, IsConfirmed, IsOwn, Filter, Candidates;
    CandidateIff(c.p, c.r, c.index, score, u);
    assert u in Filter(Spare(c, score), c.index) ==> u in c.index && Eligible(c.p, c.r, score)(u);
    RefreshedCoinsAre(owner, view, ws, kept, coins, u.outpoint);
  }
}
