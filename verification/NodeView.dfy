/** What the node reports about the wallet's coins, and the coins the wallet takes from it
    (daemon/src/utxo_manager.rs, update_utxo_set). */
module NodeView {
  import opened Wrappers
  import opened Sequences
  import opened Model
  import opened Ledger

  /** A confirmed coin; the address is optional on the wire. */
  datatype RpcUtxo = RpcUtxo(address: Option<Address>, outpoint: Coin, entry: UtxoEntry)

  /** An output of a mempool transaction; `address` is its verbose data. */
  datatype RpcOutput = RpcOutput(value: nat, script: Script, address: Option<Address>)

  /** A mempool transaction; `id` is its verbose data. */
  datatype RpcTransaction = RpcTransaction(id: Option<TxId>, spends: seq<Coin>, outputs: seq<RpcOutput>)

  /** The mempool transactions that spend from, and pay to, one address. */
  datatype RpcMempoolEntry = RpcMempoolEntry(sending: seq<RpcTransaction>, receiving: seq<RpcTransaction>)

  datatype View = View(utxos: seq<RpcUtxo>, mempool: seq<RpcMempoolEntry>)

  function SpentBy(ts: seq<RpcTransaction>): set<Coin> {
    set t, c | t in ts && c in t.spends :: c
  }

  /** Coins that a mempool transaction already spends. */
  function Excluded(mempool: seq<RpcMempoolEntry>): set<Coin> {
    set e, c | e in mempool && c in SpentBy(e.sending) :: c
  }

  /** Spent and covenant-bound coins are skipped; one at an unregistered address traps. */
  function Confirmed(owner: Owner, exclude: set<Coin>): RpcUtxo -> Result<seq<Utxo>> {
    (u: RpcUtxo) =>
      if u.outpoint in exclude || u.entry.covenantId.Some? then Ok([])
      else if u.address.None? || owner(u.address.value).None? then Err(MissingElement)
      else Ok([WalletUtxo(u.outpoint, FromUtxoEntry(u.entry), owner(u.address.value).value)])
  }

  /** Outputs to the wallet become unconfirmed coins; one without verbose data traps. */
  function Received(owner: Owner, exclude: set<Coin>, id: TxId, outputs: seq<RpcOutput>, i: nat): Result<seq<Utxo>>
    requires i <= |outputs|
    decreases |outputs| - i
  {
    if i == |outputs| then Ok([])
    else
      var o := outputs[i];
      if o.address.None? then Err(MissingElement)
      else if owner(o.address.value).None? || Outpoint(id, i) in exclude then
        Received(owner, exclude, id, outputs, i + 1)
      else
        var rest :- Received(owner, exclude, id, outputs, i + 1);
        Ok([Unconfirmed(id, i, o, owner(o.address.value).value)] + rest)
  }

  function Unconfirmed(id: TxId, i: nat, o: RpcOutput, address: WalletAddress): Utxo {
    WalletUtxo(Outpoint(id, i), WalletUtxoEntry(o.value, o.script, 0, false, true), address)
  }

  function ReceivedBy(owner: Owner, exclude: set<Coin>): RpcTransaction -> Result<seq<Utxo>> {
    (t: RpcTransaction) =>
      if t.id.None? then Err(MissingElement) else Received(owner, exclude, t.id.value, t.outputs, 0)
  }

  function ReceivedAt(owner: Owner, exclude: set<Coin>): RpcMempoolEntry -> Result<seq<Utxo>> {
    (e: RpcMempoolEntry) => Collect(ReceivedBy(owner, exclude), e.receiving)
  }

  /** The coins a refresh starts from, in the order the source gathers them. */
  function Gathered(owner: Owner, view: View): Result<seq<Utxo>> {
    var exclude := Excluded(view.mempool);
    var confirmed :- Collect(Confirmed(owner, exclude), view.utxos);
    var received :- Collect(ReceivedAt(owner, exclude), view.mempool);
    Ok(confirmed + received)
  }

  /* ----- the loops ----- */

  method ExcludedOutpoints(mempool: seq<RpcMempoolEntry>) returns (exclude: set<Coin>)
    ensures exclude == Excluded(mempool)
  {
    exclude := {};
    for i := 0 to |mempool|
      invariant exclude == Excluded(mempool[..i])
    {
      assert mempool[..i + 1] == mempool[..i] + [mempool[i]];
      var sending := mempool[i].sending;
      for j := 0 to |sending|
        invariant exclude == Excluded(mempool[..i]) + SpentBy(sending[..j])
      {
        assert sending[..j + 1] == sending[..j] + [sending[j]];
        exclude := exclude + set c | c in sending[j].spends;
      }
      assert sending[..|sending|] == sending;
    }
    assert mempool[..|mempool|] == mempool;
  }

  method ConfirmedUtxos(owner: Owner, exclude: set<Coin>, us: seq<RpcUtxo>) returns (r: Result<seq<Utxo>>)
    ensures r == Collect(Confirmed(owner, exclude), us)
  {
    var found: seq<Utxo> := [];
    CollectBegins(Confirmed(owner, exclude), us);
    for i := 0 to |us|
      invariant Collect(Confirmed(owner, exclude), us) == Prepend(found, Collect(Confirmed(owner, exclude), us[i..]))
    {
      CollectStep(Confirmed(owner, exclude), us, i, found);
      assert found + [] == found;
      if us[i].outpoint in exclude {
        continue;
      }
      if us[i].entry.covenantId.Some? {
        continue;
      }
      if us[i].address.None? || owner(us[i].address.value).None? {
        return Err(MissingElement);
      }
      found := found + [WalletUtxo(us[i].outpoint, FromUtxoEntry(us[i].entry), owner(us[i].address.value).value)];
    }
    CollectEnds(Confirmed(owner, exclude), us, found);
    r := Ok(found);
  }

  method ReceivedOutputs(owner: Owner, exclude: set<Coin>, t: RpcTransaction) returns (r: Result<seq<Utxo>>)
    ensures r == ReceivedBy(owner, exclude)(t)
  {
    if t.id.None? {
      return Err(MissingElement);
    }
    var id := t.id.value;
    var found: seq<Utxo> := [];
    PrependNothing(Received(owner, exclude, id, t.outputs, 0));
    for i := 0 to |t.outputs|
      invariant Received(owner, exclude, id, t.outputs, 0) == Prepend(found, Received(owner, exclude, id, t.outputs, i))
    {
      var o := t.outputs[i];
      if o.address.None? {
        return Err(MissingElement);
      }
      var address := owner(o.address.value);
      if address.None? {
        continue;
      }
      if Outpoint(id, i) in exclude {
        continue;
      }
      ReceivedStep(owner, exclude, id, t.outputs, i, found);
      found := found + [Unconfirmed(id, i, o, address.value)];
    }
    assert found + [] == found;
    r := Ok(found);
  }

  lemma PrependNothing(r: Result<seq<Utxo>>)
    ensures Prepend([], r) == r
  {
    if r.Ok? {
      assert [] + r.value == r.value;
    }
  }

  lemma ReceivedStep(owner: Owner, exclude: set<Coin>, id: TxId, outputs: seq<RpcOutput>, i: nat, found: seq<Utxo>)
    requires i < |outputs| && outputs[i].address.Some? && owner(outputs[i].address.value).Some?
    requires Outpoint(id, i) !in exclude
    ensures Prepend(found, Received(owner, exclude, id, outputs, i)) ==
      Prepend(found + [Unconfirmed(id, i, outputs[i], owner(outputs[i].address.value).value)],
        Received(owner, exclude, id, outputs, i + 1))
  {
    var u := Unconfirmed(id, i, outputs[i], owner(outputs[i].address.value).value);
    var rest := Received(owner, exclude, id, outputs, i + 1);
    if rest.Ok? {
      assert found + ([u] + rest.value) == found + [u] + rest.value;
    }
  }

  method ReceivedListing(owner: Owner, exclude: set<Coin>, receiving: seq<RpcTransaction>)
    returns (r: Result<seq<Utxo>>)
    ensures r == Collect(ReceivedBy(owner, exclude), receiving)
  {
    hide Collect, ReceivedBy;
    var found: seq<Utxo> := [];
    CollectBegins(ReceivedBy(owner, exclude), receiving);
    for i := 0 to |receiving|
      invariant Collect(ReceivedBy(owner, exclude), receiving)
        == Prepend(found, Collect(ReceivedBy(owner, exclude), receiving[i..]))
    {
      CollectStep(ReceivedBy(owner, exclude), receiving, i, found);
      var more := ReceivedOutputs(owner, exclude, receiving[i]);
      if more.Err? {
        return more;
      }
      found := found + more.value;
    }
    CollectEnds(ReceivedBy(owner, exclude), receiving, found);
    r := Ok(found);
  }

  method ReceivedUtxos(owner: Owner, exclude: set<Coin>, mempool: seq<RpcMempoolEntry>) returns (r: Result<seq<Utxo>>)
    ensures r == Collect(ReceivedAt(owner, exclude), mempool)
  {
    hide Collect, ReceivedBy;
    var found: seq<Utxo> := [];
    CollectBegins(ReceivedAt(owner, exclude), mempool);
    for i := 0 to |mempool|
      invariant Collect(ReceivedAt(owner, exclude), mempool)
        == Prepend(found, Collect(ReceivedAt(owner, exclude), mempool[i..]))
    {
      CollectStep(ReceivedAt(owner, exclude), mempool, i, found);
      var more := ReceivedListing(owner, exclude, mempool[i].receiving);
      if more.Err? {
        return more;
      }
      found := found + more.value;
    }
    CollectEnds(ReceivedAt(owner, exclude), mempool, found);
    r := Ok(found);
  }

  /* ----- a response that names no coin twice ----- */

  /** The ids of all transactions listed as paying the wallet. */
  function ListedIds(mempool: seq<RpcMempoolEntry>): seq<Option<TxId>> {
    if mempool == [] then [] else IdsOf(mempool[0].receiving) + ListedIds(mempool[1..])
  }

  function IdsOf(ts: seq<RpcTransaction>): seq<Option<TxId>> {
    Map((t: RpcTransaction) => t.id, ts)
  }

  function IdOfCoin(c: Coin): Option<TxId> {
    Some(c.transactionId)
  }

  lemma {:induction false} ReceivedDistinct(owner: Owner, exclude: set<Coin>, id: TxId, outputs: seq<RpcOutput>, i: nat)
    requires i <= |outputs| && Received(owner, exclude, id, outputs, i).Ok?
    ensures
      var cs := Outpoints(Received(owner, exclude, id, outputs, i).value);
      NoDup(cs) && forall c :: c in cs ==> c.transactionId == id && c.index >= i
    decreases |outputs| - i
  {
    if i < |outputs| {
      hide NoDup;
      ReceivedDistinct(owner, exclude, id, outputs, i + 1);
      var all, rest :=
        Received(owner, exclude, id, outputs, i).value, Received(owner, exclude, id, outputs, i + 1).value;
      if all != rest {
        assert all == [all[0]] + rest;
        assert Outpoints(all) == [all[0].outpoint] + Outpoints(rest);
        NoDupAppend([all[0].outpoint], Outpoints(rest));
        NoDupFew(all[0].outpoint);
      }
    }
  }

  /** Pieces with different ids, each without duplicates, have none together. */
  lemma Joined(first: seq<Utxo>, rest: seq<Utxo>, ids: seq<Option<TxId>>, more: seq<Option<TxId>>)
    requires NoDup(ids + more) && NoDup(Outpoints(first)) && NoDup(Outpoints(rest))
    requires forall c :: c in Outpoints(first) ==> IdOfCoin(c) in ids
    requires forall c :: c in Outpoints(rest) ==> IdOfCoin(c) in more
    ensures NoDup(Outpoints(first + rest)) && forall c :: c in Outpoints(first + rest) ==> IdOfCoin(c) in ids + more
  {
    hide NoDup;
    assert Outpoints(first + rest) == Outpoints(first) + Outpoints(rest);
    NoDupAppend(ids, more);
    NoDupAppend(Outpoints(first), Outpoints(rest));
  }

  lemma {:induction false} ListingDistinct(owner: Owner, exclude: set<Coin>, ts: seq<RpcTransaction>)
    requires Collect(ReceivedBy(owner, exclude), ts).Ok? && NoDup(IdsOf(ts))
    ensures
      var cs := Outpoints(Collect(ReceivedBy(owner, exclude), ts).value);
      NoDup(cs) && forall c :: c in cs ==> IdOfCoin(c) in IdsOf(ts)
  {
    if ts != [] {
      assert IdsOf(ts) == [ts[0].id] + IdsOf(ts[1..]);
      NoDupAppend([ts[0].id], IdsOf(ts[1..]));
      hide NoDup, IdsOf;
      ListingDistinct(owner, exclude, ts[1..]);
      ReceivedDistinct(owner, exclude, ts[0].id.value, ts[0].outputs, 0);
      Joined(ReceivedBy(owner, exclude)(ts[0]).value, Collect(ReceivedBy(owner, exclude), ts[1..]).value,
             [ts[0].id], IdsOf(ts[1..]));
    }
  }

  lemma {:induction false} MempoolDistinct(owner: Owner, exclude: set<Coin>, mempool: seq<RpcMempoolEntry>)
    requires Collect(ReceivedAt(owner, exclude), mempool).Ok? && NoDup(ListedIds(mempool))
    ensures
      var cs := Outpoints(Collect(ReceivedAt(owner, exclude), mempool).value);
      NoDup(cs) && forall c :: c in cs ==> IdOfCoin(c) in ListedIds(mempool)
  {
    if mempool != [] {
      hide NoDup, IdsOf;
      NoDupAppend(IdsOf(mempool[0].receiving), ListedIds(mempool[1..]));
      ListingDistinct(owner, exclude, mempool[0].receiving);
      MempoolDistinct(owner, exclude, mempool[1..]);
      Joined(ReceivedAt(owner, exclude)(mempool[0]).value, Collect(ReceivedAt(owner, exclude), mempool[1..]).value,
             IdsOf(mempool[0].receiving), ListedIds(mempool[1..]));
    }
  }

  function RpcOutpoint(u: RpcUtxo): Coin {
    u.outpoint
  }

  lemma {:induction false} ConfirmedDistinct(owner: Owner, exclude: set<Coin>, us: seq<RpcUtxo>)
    requires Collect(Confirmed(owner, exclude), us).Ok? && NoDup(Map(RpcOutpoint, us))
    ensures
      var cs := Outpoints(Collect(Confirmed(owner, exclude), us).value);
      NoDup(cs) && forall c :: c in cs ==> c in Map(RpcOutpoint, us)
  {
    if us != [] {
      assert Map(RpcOutpoint, us) == [us[0].outpoint] + Map(RpcOutpoint, us[1..]);
      NoDupAppend([us[0].outpoint], Map(RpcOutpoint, us[1..]));
      hide NoDup;
      ConfirmedDistinct(owner, exclude, us[1..]);
      var first, rest := Confirmed(owner, exclude)(us[0]).value, Collect(Confirmed(owner, exclude), us[1..]).value;
      assert Outpoints(first + rest) == Outpoints(first) + Outpoints(rest);
      NoDupAppend(Outpoints(first), Outpoints(rest));
      assert first == [] || Outpoints(first) == [us[0].outpoint];
      NoDupFew(us[0].outpoint);
    }
  }

  /** A response that names no coin twice, lists no mempool transaction twice and confirms no output
      of a listed one. */
  ghost predicate Distinct(view: View) {
    && NoDup(Map(RpcOutpoint, view.utxos)) && NoDup(ListedIds(view.mempool))
    && forall u :: u in view.utxos ==> Some(u.outpoint.transactionId) !in ListedIds(view.mempool)
  }

  lemma DistinctGathersOnce(owner: Owner, view: View)
    requires Gathered(owner, view).Ok? && Distinct(view)
    ensures NoDup(Outpoints(Gathered(owner, view).value))
  {
    hide NoDup, Excluded, ListedIds;
    var exclude := Excluded(view.mempool);
    ConfirmedDistinct(owner, exclude, view.utxos);
    MempoolDistinct(owner, exclude, view.mempool);
    var confirmed := Collect(Confirmed(owner, exclude), view.utxos).value;
    var received := Collect(ReceivedAt(owner, exclude), view.mempool).value;
    assert Outpoints(confirmed + received) == Outpoints(confirmed) + Outpoints(received);
    NoDupAppend(Outpoints(confirmed), Outpoints(received));
    forall c | c in Outpoints(confirmed) ensures c !in Outpoints(received) {
      var i :| 0 <= i < |view.utxos| && Map(RpcOutpoint, view.utxos)[i] == c;
      assert view.utxos[i] in view.utxos;
      assert IdOfCoin(c) !in ListedIds(view.mempool);
    }
  }
}
