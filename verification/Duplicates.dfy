/** When a refresh gathers a coin twice, read off the node's response (daemon/src/utxo_manager.rs,
    update_utxo_set). */
module Duplicates {
  import opened Wrappers
  import opened Sequences
  import opened Model
  import opened Ledger
  import opened NodeView

  /** Where in a response a coin may be named. */
  datatype Spot = InUtxos(i: nat) | InMempool(i: nat, j: nat, k: nat)

  function KeptUtxo(exclude: set<Coin>, u: RpcUtxo): Option<Coin> {
    if u.outpoint in exclude || u.entry.covenantId.Some? then None else Some(u.outpoint)
  }

  function KeptOutput(owner: Owner, exclude: set<Coin>, t: RpcTransaction, k: nat): Option<Coin> {
    if && t.id.Some? && k < |t.outputs| && t.outputs[k].address.Some?
       && owner(t.outputs[k].address.value).Some? && Outpoint(t.id.value, k) !in exclude
    then Some(Outpoint(t.id.value, k)) else None
  }

  /** The coin the wallet keeps from there, if it keeps one. */
  function KeptAt(owner: Owner, view: View, spot: Spot): Option<Coin> {
    var exclude := Excluded(view.mempool);
    match spot
    case InUtxos(i) => if i < |view.utxos| then KeptUtxo(exclude, view.utxos[i]) else None
    case InMempool(i, j, k) =>
      if i < |view.mempool| && j < |view.mempool[i].receiving|
      then KeptOutput(owner, exclude, view.mempool[i].receiving[j], k) else None
  }

  /** The same coin is kept from both. */
  ghost predicate Clash(owner: Owner, view: View, a: Spot, b: Spot) {
    a != b && KeptAt(owner, view, a).Some? && KeptAt(owner, view, a) == KeptAt(owner, view, b)
  }

  /* ----- lists put together from pieces ----- */

  lemma {:induction false} CollectHolds<A>(f: A -> Result<seq<Utxo>>, s: seq<A>, i: nat, c: Coin)
    requires Collect(f, s).Ok? && i < |s|
    ensures f(s[i]).Ok?
    ensures c in Outpoints(f(s[i]).value) ==> c in Outpoints(Collect(f, s).value)
    ensures NoDup(Outpoints(Collect(f, s).value)) ==> NoDup(Outpoints(f(s[i]).value))
  {
    hide NoDup;
    var first, rest := f(s[0]).value, Collect(f, s[1..]).value;
    assert Outpoints(first + rest) == Outpoints(first) + Outpoints(rest);
    NoDupAppend(Outpoints(first), Outpoints(rest));
    if i > 0 {
      CollectHolds(f, s[1..], i - 1, c);
    }
  }

  /** A coin in two pieces is there twice. */
  lemma {:induction false} CollectShared<A>(f: A -> Result<seq<Utxo>>, s: seq<A>, i: nat, j: nat, c: Coin)
    requires Collect(f, s).Ok? && i < j < |s|
    requires f(s[i]).Ok? && f(s[j]).Ok? && c in Outpoints(f(s[i]).value) && c in Outpoints(f(s[j]).value)
    ensures !NoDup(Outpoints(Collect(f, s).value))
  {
    hide NoDup;
    var first, rest := f(s[0]).value, Collect(f, s[1..]).value;
    assert Outpoints(first + rest) == Outpoints(first) + Outpoints(rest);
    NoDupAppend(Outpoints(first), Outpoints(rest));
    if i == 0 {
      CollectHolds(f, s[1..], j - 1, c);
    } else {
      CollectShared(f, s[1..], i - 1, j - 1, c);
    }
  }

  lemma {:induction false} CollectFinds<A>(f: A -> Result<seq<Utxo>>, s: seq<A>, c: Coin) returns (i: nat)
    requires Collect(f, s).Ok? && c in Outpoints(Collect(f, s).value)
    ensures i < |s| && f(s[i]).Ok? && c in Outpoints(f(s[i]).value)
  {
    var first, rest := f(s[0]).value, Collect(f, s[1..]).value;
    assert Outpoints(first + rest) == Outpoints(first) + Outpoints(rest);
    if c in Outpoints(first) {
      i := 0;
    } else {
      i := CollectFinds(f, s[1..], c);
      i := i + 1;
    }
  }

  /** What is there twice is in one piece twice, or in two pieces. */
  lemma {:induction false} CollectRepeats<A>(f: A -> Result<seq<Utxo>>, s: seq<A>) returns (i: nat, j: nat, c: Coin)
    requires Collect(f, s).Ok? && !NoDup(Outpoints(Collect(f, s).value))
    ensures i <= j < |s| && f(s[i]).Ok? && f(s[j]).Ok?
    ensures i == j ==> !NoDup(Outpoints(f(s[i]).value))
    ensures i < j ==> c in Outpoints(f(s[i]).value) && c in Outpoints(f(s[j]).value)
  {
    if s == [] {
      NothingRepeats();
    } else {
      hide NoDup;
      var first, rest := f(s[0]).value, Collect(f, s[1..]).value;
      assert Outpoints(first + rest) == Outpoints(first) + Outpoints(rest);
      NoDupAppend(Outpoints(first), Outpoints(rest));
      if !NoDup(Outpoints(first)) {
        i, j, c := 0, 0, Outpoint(NodeTx(0), 0);
      } else if !NoDup(Outpoints(rest)) {
        i, j, c := CollectRepeats(f, s[1..]);
        i, j := i + 1, j + 1;
      } else {
        c :| c in Outpoints(first) && c in Outpoints(rest);
        j := CollectFinds(f, s[1..], c);
        i, j := 0, j + 1;
      }
    }
  }

  /** Pieces that each repeat nothing share a coin. */
  lemma CollectShares<A>(f: A -> Result<seq<Utxo>>, s: seq<A>) returns (i: nat, j: nat, c: Coin)
    requires Collect(f, s).Ok? && !NoDup(Outpoints(Collect(f, s).value))
    requires forall x :: x in s && f(x).Ok? ==> NoDup(Outpoints(f(x).value))
    ensures i < j < |s| && f(s[i]).Ok? && f(s[j]).Ok?
    ensures c in Outpoints(f(s[i]).value) && c in Outpoints(f(s[j]).value)
  {
    hide NoDup, Collect;
    i, j, c := CollectRepeats(f, s);
  }

  /* ----- what each piece holds ----- */

  lemma ConfirmedIs(owner: Owner, exclude: set<Coin>, u: RpcUtxo, c: Coin)
    requires Confirmed(owner, exclude)(u).Ok?
    ensures c in Outpoints(Confirmed(owner, exclude)(u).value) <==> KeptUtxo(exclude, u) == Some(c)
    ensures NoDup(Outpoints(Confirmed(owner, exclude)(u).value))
  {
    var cs := Outpoints(Confirmed(owner, exclude)(u).value);
    assert cs == if KeptUtxo(exclude, u).Some? then [u.outpoint] else [];
  }

  lemma {:induction false} ReceivedIs(owner: Owner, exclude: set<Coin>, t: RpcTransaction, i: nat, c: Coin)
    requires t.id.Some? && i <= |t.outputs| && Received(owner, exclude, t.id.value, t.outputs, i).Ok?
    ensures c in Outpoints(Received(owner, exclude, t.id.value, t.outputs, i).value)
      <==> i <= c.index && KeptOutput(owner, exclude, t, c.index) == Some(c)
    decreases |t.outputs| - i
  {
    if i < |t.outputs| {
      ReceivedIs(owner, exclude, t, i + 1, c);
      var all, rest := Received(owner, exclude, t.id.value, t.outputs, i).value,
                       Received(owner, exclude, t.id.value, t.outputs, i + 1).value;
      if all != rest {
        assert Outpoints(all) == [all[0].outpoint] + Outpoints(rest);
      }
    }
  }

  lemma TransactionIs(owner: Owner, exclude: set<Coin>, t: RpcTransaction, c: Coin)
    requires ReceivedBy(owner, exclude)(t).Ok?
    ensures c in Outpoints(ReceivedBy(owner, exclude)(t).value) <==> KeptOutput(owner, exclude, t, c.index) == Some(c)
    ensures NoDup(Outpoints(ReceivedBy(owner, exclude)(t).value))
  {
    hide Received, KeptOutput, NoDup;
    ReceivedIs(owner, exclude, t, 0, c);
    ReceivedDistinct(owner, exclude, t.id.value, t.outputs, 0);
  }

  lemma ListingHolds(owner: Owner, exclude: set<Coin>, e: RpcMempoolEntry, j: nat, k: nat, c: Coin)
    requires ReceivedAt(owner, exclude)(e).Ok? && j < |e.receiving|
    requires KeptOutput(owner, exclude, e.receiving[j], k) == Some(c)
    ensures c in Outpoints(ReceivedAt(owner, exclude)(e).value)
    ensures ReceivedBy(owner, exclude)(e.receiving[j]).Ok?
    ensures c in Outpoints(ReceivedBy(owner, exclude)(e.receiving[j]).value)
  {
    hide Collect, NoDup, ReceivedBy;
    CollectHolds(ReceivedBy(owner, exclude), e.receiving, j, c);
    TransactionIs(owner, exclude, e.receiving[j], c);
  }

  lemma ListingFinds(owner: Owner, exclude: set<Coin>, e: RpcMempoolEntry, c: Coin) returns (j: nat)
    requires ReceivedAt(owner, exclude)(e).Ok? && c in Outpoints(ReceivedAt(owner, exclude)(e).value)
    ensures j < |e.receiving| && KeptOutput(owner, exclude, e.receiving[j], c.index) == Some(c)
  {
    hide Collect, NoDup, ReceivedBy;
    j := CollectFinds(ReceivedBy(owner, exclude), e.receiving, c);
    TransactionIs(owner, exclude, e.receiving[j], c);
  }

  /** The two halves of what a refresh gathers. */
  lemma Halves(owner: Owner, view: View)
    requires Gathered(owner, view).Ok?
    ensures
      var exclude := Excluded(view.mempool);
      var confirmed, received := Collect(Confirmed(owner, exclude), view.utxos),
                                 Collect(ReceivedAt(owner, exclude), view.mempool);
      && confirmed.Ok? && received.Ok?
      && (NoDup(Outpoints(Gathered(owner, view).value)) <==>
            && NoDup(Outpoints(confirmed.value)) && NoDup(Outpoints(received.value))
            && forall c :: c in Outpoints(confirmed.value) ==> c !in Outpoints(received.value))
  {
    hide NoDup, Collect, Excluded;
    var exclude := Excluded(view.mempool);
    var confirmed, received := Collect(Confirmed(owner, exclude), view.utxos).value,
                               Collect(ReceivedAt(owner, exclude), view.mempool).value;
    assert Outpoints(confirmed + received) == Outpoints(confirmed) + Outpoints(received);
    NoDupAppend(Outpoints(confirmed), Outpoints(received));
  }

  /* ----- a clash is a duplicate ----- */

  /** The kept coin is in the half that its spot belongs to. */
  lemma KeptIsGathered(owner: Owner, view: View, a: Spot, c: Coin)
    requires Gathered(owner, view).Ok? && KeptAt(owner, view, a) == Some(c)
    ensures
      var exclude := Excluded(view.mempool);
      if a.InUtxos? then c in Outpoints(Collect(Confirmed(owner, exclude), view.utxos).value)
      else c in Outpoints(Collect(ReceivedAt(owner, exclude), view.mempool).value)
  {
    hide NoDup, Collect, Excluded, Confirmed, ReceivedAt, KeptOutput, KeptUtxo;
    var exclude := Excluded(view.mempool);
    Halves(owner, view);
    match a
    case InUtxos(i) =>
      CollectHolds(Confirmed(owner, exclude), view.utxos, i, c);
      ConfirmedIs(owner, exclude, view.utxos[i], c);
    case InMempool(i, j, k) =>
      CollectHolds(ReceivedAt(owner, exclude), view.mempool, i, c);
      ListingHolds(owner, exclude, view.mempool[i], j, k, c);
  }

  lemma UtxosClash(owner: Owner, view: View, i: nat, j: nat)
    requires Gathered(owner, view).Ok? && i < j && Clash(owner, view, InUtxos(i), InUtxos(j))
    ensures !NoDup(Outpoints(Collect(Confirmed(owner, Excluded(view.mempool)), view.utxos).value))
  {
    hide NoDup, Collect, Excluded, Confirmed, KeptUtxo;
    var exclude, c := Excluded(view.mempool), KeptAt(owner, view, InUtxos(i)).value;
    Halves(owner, view);
    CollectHolds(Confirmed(owner, exclude), view.utxos, i, c);
    CollectHolds(Confirmed(owner, exclude), view.utxos, j, c);
    ConfirmedIs(owner, exclude, view.utxos[i], c);
    ConfirmedIs(owner, exclude, view.utxos[j], c);
    CollectShared(Confirmed(owner, exclude), view.utxos, i, j, c);
  }

  lemma ListingsClash(owner: Owner, view: View, a: Spot, b: Spot)
    requires Gathered(owner, view).Ok? && a.InMempool? && b.InMempool? && Clash(owner, view, a, b)
    requires a.i < b.i || (a.i == b.i && a.j < b.j)
    ensures !NoDup(Outpoints(Collect(ReceivedAt(owner, Excluded(view.mempool)), view.mempool).value))
  {
    hide NoDup, Collect, Excluded, ReceivedBy, KeptOutput;
    var exclude, c := Excluded(view.mempool), KeptAt(owner, view, a).value;
    Halves(owner, view);
    CollectHolds(ReceivedAt(owner, exclude), view.mempool, a.i, c);
    CollectHolds(ReceivedAt(owner, exclude), view.mempool, b.i, c);
    ListingHolds(owner, exclude, view.mempool[a.i], a.j, a.k, c);
    ListingHolds(owner, exclude, view.mempool[b.i], b.j, b.k, c);
    if a.i < b.i {
      CollectShared(ReceivedAt(owner, exclude), view.mempool, a.i, b.i, c);
    } else {
      CollectShared(ReceivedBy(owner, exclude), view.mempool[a.i].receiving, a.j, b.j, c);
    }
  }

  lemma SameOutput(owner: Owner, exclude: set<Coin>, t: RpcTransaction, k: nat, l: nat)
    requires KeptOutput(owner, exclude, t, k).Some?
    requires KeptOutput(owner, exclude, t, k) == KeptOutput(owner, exclude, t, l)
    ensures k == l
  {
  }

  lemma ClashRepeats(owner: Owner, view: View, a: Spot, b: Spot)
    requires Gathered(owner, view).Ok? && Clash(owner, view, a, b)
    ensures !NoDup(Outpoints(Gathered(owner, view).value))
  {
    hide NoDup, Collect, Excluded, KeptOutput, KeptUtxo;
    Halves(owner, view);
    var c := KeptAt(owner, view, a).value;
    KeptIsGathered(owner, view, a, c);
    KeptIsGathered(owner, view, b, c);
    if a.InUtxos? && b.InUtxos? {
      UtxosClash(owner, view, if a.i < b.i then a.i else b.i, if a.i < b.i then b.i else a.i);
    } else if a.InMempool? && b.InMempool? {
      if a.i == b.i && a.j == b.j {
        SameOutput(owner, Excluded(view.mempool), view.mempool[a.i].receiving[a.j], a.k, b.k);
      } else if a.i < b.i || (a.i == b.i && a.j < b.j) {
        ListingsClash(owner, view, a, b);
      } else {
        ListingsClash(owner, view, b, a);
      }
    }
  }

  /* ----- a duplicate is a clash ----- */

  lemma UtxosRepeat(owner: Owner, view: View) returns (a: Spot, b: Spot)
    requires Gathered(owner, view).Ok?
    requires
      var us := Collect(Confirmed(owner, Excluded(view.mempool)), view.utxos);
      us.Ok? && !NoDup(Outpoints(us.value))
    ensures Clash(owner, view, a, b)
  {
    hide NoDup, Collect, Excluded, Confirmed, KeptUtxo;
    var exclude := Excluded(view.mempool);
    forall u | u in view.utxos && Confirmed(owner, exclude)(u).Ok?
      ensures NoDup(Outpoints(Confirmed(owner, exclude)(u).value))
    {
      ConfirmedIs(owner, exclude, u, Outpoint(NodeTx(0), 0));
    }
    var i, j, c := CollectShares(Confirmed(owner, exclude), view.utxos);
    ConfirmedIs(owner, exclude, view.utxos[i], c);
    ConfirmedIs(owner, exclude, view.utxos[j], c);
    a, b := InUtxos(i), InUtxos(j);
  }

  lemma ListingsRepeat(owner: Owner, view: View) returns (a: Spot, b: Spot)
    requires Gathered(owner, view).Ok?
    requires
      var us := Collect(ReceivedAt(owner, Excluded(view.mempool)), view.mempool);
      us.Ok? && !NoDup(Outpoints(us.value))
    ensures Clash(owner, view, a, b)
  {
    hide NoDup, Collect, Excluded, ReceivedBy, KeptOutput;
    var exclude := Excluded(view.mempool);
    var i, j, c := CollectRepeats(ReceivedAt(owner, exclude), view.mempool);
    if i < j {
      var x := ListingFinds(owner, exclude, view.mempool[i], c);
      var y := ListingFinds(owner, exclude, view.mempool[j], c);
      a, b := InMempool(i, x, c.index), InMempool(j, y, c.index);
    } else {
      var ts := view.mempool[i].receiving;
      forall t | t in ts && ReceivedBy(owner, exclude)(t).Ok?
        ensures NoDup(Outpoints(ReceivedBy(owner, exclude)(t).value))
      {
        TransactionIs(owner, exclude, t, c);
      }
      var x, y, d := CollectShares(ReceivedBy(owner, exclude), ts);
      TransactionIs(owner, exclude, ts[x], d);
      TransactionIs(owner, exclude, ts[y], d);
      a, b := InMempool(i, x, d.index), InMempool(i, y, d.index);
    }
  }

  lemma RepeatClashes(owner: Owner, view: View) returns (a: Spot, b: Spot)
    requires Gathered(owner, view).Ok? && !NoDup(Outpoints(Gathered(owner, view).value))
    ensures Clash(owner, view, a, b)
  {
    hide NoDup, Collect, Excluded, Confirmed, ReceivedAt, KeptOutput, KeptUtxo;
    var exclude := Excluded(view.mempool);
    Halves(owner, view);
    var confirmed, received := Collect(Confirmed(owner, exclude), view.utxos).value,
                               Collect(ReceivedAt(owner, exclude), view.mempool).value;
    if !NoDup(Outpoints(confirmed)) {
      a, b := UtxosRepeat(owner, view);
    } else if !NoDup(Outpoints(received)) {
      a, b := ListingsRepeat(owner, view);
    } else {
      var c :| c in Outpoints(confirmed) && c in Outpoints(received);
      var i := CollectFinds(Confirmed(owner, exclude), view.utxos, c);
      ConfirmedIs(owner, exclude, view.utxos[i], c);
      var j := CollectFinds(ReceivedAt(owner, exclude), view.mempool, c);
      var x := ListingFinds(owner, exclude, view.mempool[j], c);
      a, b := InUtxos(i), InMempool(j, x, c.index);
    }
  }

  /** A refresh gathers no coin twice exactly when the response does not name a coin that the wallet
      keeps at two spots. */
  lemma GatheredOnceIff(owner: Owner, view: View)
    requires Gathered(owner, view).Ok?
    ensures NoDup(Outpoints(Gathered(owner, view).value)) <==> forall a, b :: !Clash(owner, view, a, b)
  {
    hide NoDup, Gathered, Clash;
    if !NoDup(Outpoints(Gathered(owner, view).value)) {
      var a, b := RepeatClashes(owner, view);
    }
    if a, b :| Clash(owner, view, a, b) {
      ClashRepeats(owner, view, a, b);
    }
  }

  /** The node lists a mempool transaction under every address it pays, and the wallet takes every
      listing: a transaction that pays the wallet and is listed under two of its addresses is
      gathered twice. */
  lemma ListedTwice(owner: Owner, view: View, i: nat, j: nat, t: RpcTransaction, k: nat)
    requires Gathered(owner, view).Ok? && i < j < |view.mempool|
    requires t in view.mempool[i].receiving && t in view.mempool[j].receiving
    requires KeptOutput(owner, Excluded(view.mempool), t, k).Some?
    ensures !NoDup(Outpoints(Gathered(owner, view).value))
  {
    hide NoDup, Gathered, Excluded, KeptOutput;
    var x :| 0 <= x < |view.mempool[i].receiving| && view.mempool[i].receiving[x] == t;
    var y :| 0 <= y < |view.mempool[j].receiving| && view.mempool[j].receiving[y] == t;
    ClashRepeats(owner, view, InMempool(i, x, k), InMempool(j, y, k));
  }

  /* ----- a response that does ----- */

  /** A mempool transaction that pays two addresses, listed by the node under each. */
  function PaysBoth(a: Address, b: Address): RpcTransaction {
    RpcTransaction(Some(NodeTx(7)), [], [RpcOutput(5, PayToAddressScript(a), Some(a)),
                                         RpcOutput(6, PayToAddressScript(b), Some(b))])
  }

  function ListedUnderBoth(a: Address, b: Address): View {
    View([], [RpcMempoolEntry([], [PaysBoth(a, b)]), RpcMempoolEntry([], [PaysBoth(a, b)])])
  }

  /** Of a wallet that owns both addresses the refresh takes the transaction in, twice. */
  lemma GatheredTwice(owner: Owner, a: Address, b: Address)
    requires owner(a).Some? && owner(b).Some?
    ensures
      var view := ListedUnderBoth(a, b);
      && Gathered(owner, view).Ok? && |Gathered(owner, view).value| == 4
      && !NoDup(Outpoints(Gathered(owner, view).value))
      && Clash(owner, view, InMempool(0, 0, 0), InMempool(1, 0, 0))
  {
    var view, t := ListedUnderBoth(a, b), PaysBoth(a, b);
    assert Excluded(view.mempool) == {};
    PaysTwoCoins(owner, a, b);
    hide ReceivedBy;
    assert ReceivedAt(owner, {})(view.mempool[0]) == ReceivedBy(owner, {})(t) by {
      CollectOne(ReceivedBy(owner, {}), t);
    }
    var one := ReceivedBy(owner, {})(t).value;
    assert view.mempool[1..] == [view.mempool[1]];
    CollectOne(ReceivedAt(owner, {}), view.mempool[1]);
    assert Collect(ReceivedAt(owner, {}), view.mempool) == Ok(one + one);
    assert Gathered(owner, view) == Ok([] + (one + one));
    ListedTwice(owner, view, 0, 1, t, 0);
  }

  lemma CollectOne<A>(f: A -> Result<seq<Utxo>>, x: A)
    ensures Collect(f, [x]) == f(x)
  {
    assert [x][1..] == [];
    if f(x).Ok? {
      assert f(x).value + [] == f(x).value;
    }
  }

  lemma PaysTwoCoins(owner: Owner, a: Address, b: Address)
    requires owner(a).Some? && owner(b).Some?
    ensures
      var r := ReceivedBy(owner, {})(PaysBoth(a, b));
      r.Ok? && |r.value| == 2
  {
    var t := PaysBoth(a, b);
    assert Received(owner, {}, NodeTx(7), t.outputs, 2) == Ok([]);
    assert Received(owner, {}, NodeTx(7), t.outputs, 1).Ok?;
  }
}
