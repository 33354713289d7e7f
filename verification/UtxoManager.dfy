/** The UTXO manager (daemon/src/utxo_manager.rs): a list sorted by amount, a map by outpoint and
    the wallet's own unaccepted transactions, changed in place. */
module UtxoManager {
  import opened Wrappers
  import opened Sequences
  import opened Model
  import opened AddressBook
  import opened AddressManager
  import opened Ledger
  import opened UtxoIndex
  import opened MempoolReplay
  import opened NodeView
  import Selection

  /** Every coin sits at an address whose text is registered. */
  ghost predicate Registered(s: Scheme, texts: set<string>, m: Coins) {
    forall c :: c in m ==> OneOf(s, m[c].address, texts)
  }

  lemma OwnerIsRegistered(s: Scheme, book: AddressSet, a: Address)
    requires Genuine(s, book) && OwnerIn(book, s.text)(a).Some?
    ensures OneOf(s, OwnerIn(book, s.text)(a).value, book.Keys)
  {
  }

  /** Nothing a refresh gathers sits at an unregistered address. */
  lemma GatheredIsRegistered(s: Scheme, book: AddressSet, view: View)
    requires Genuine(s, book) && Gathered(OwnerIn(book, s.text), view).Ok?
    ensures Registered(s, book.Keys, ByOutpoint(Gathered(OwnerIn(book, s.text), view).value))
  {
    hide Excluded;
    var owner, exclude := OwnerIn(book, s.text), Excluded(view.mempool);
    ConfirmedRegistered(s, book, exclude, view.utxos);
    ReceivedRegistered(s, book, exclude, view.mempool);
    ByOutpointHolds(Gathered(owner, view).value);
  }

  ghost predicate AllRegistered(s: Scheme, texts: set<string>, us: seq<Utxo>) {
    forall u :: u in us ==> OneOf(s, u.address, texts)
  }

  lemma {:induction false} ConfirmedRegistered(s: Scheme, book: AddressSet, exclude: set<Coin>, us: seq<RpcUtxo>)
    requires Genuine(s, book) && Collect(Confirmed(OwnerIn(book, s.text), exclude), us).Ok?
    ensures AllRegistered(s, book.Keys, Collect(Confirmed(OwnerIn(book, s.text), exclude), us).value)
  {
    if us != [] {
      ConfirmedRegistered(s, book, exclude, us[1..]);
    }
  }

  lemma {:induction false} OutputsRegistered(s: Scheme, book: AddressSet, exclude: set<Coin>, id: TxId,
                                             outputs: seq<RpcOutput>, i: nat)
    requires Genuine(s, book) && i <= |outputs| && Received(OwnerIn(book, s.text), exclude, id, outputs, i).Ok?
    ensures AllRegistered(s, book.Keys, Received(OwnerIn(book, s.text), exclude, id, outputs, i).value)
    decreases |outputs| - i
  {
    if i < |outputs| {
      OutputsRegistered(s, book, exclude, id, outputs, i + 1);
    }
  }

  lemma {:induction false} ListingRegistered(s: Scheme, book: AddressSet, exclude: set<Coin>, ts: seq<RpcTransaction>)
    requires Genuine(s, book) && Collect(ReceivedBy(OwnerIn(book, s.text), exclude), ts).Ok?
    ensures AllRegistered(s, book.Keys, Collect(ReceivedBy(OwnerIn(book, s.text), exclude), ts).value)
  {
    if ts != [] {
      OutputsRegistered(s, book, exclude, ts[0].id.value, ts[0].outputs, 0);
      ListingRegistered(s, book, exclude, ts[1..]);
    }
  }

  lemma {:induction false} ReceivedRegistered(s: Scheme, book: AddressSet, exclude: set<Coin>,
                                              mempool: seq<RpcMempoolEntry>)
    requires Genuine(s, book) && Collect(ReceivedAt(OwnerIn(book, s.text), exclude), mempool).Ok?
    ensures AllRegistered(s, book.Keys, Collect(ReceivedAt(OwnerIn(book, s.text), exclude), mempool).value)
  {
    if mempool != [] {
      ListingRegistered(s, book, exclude, mempool[0].receiving);
      ReceivedRegistered(s, book, exclude, mempool[1..]);
    }
  }

  lemma MissesOrRepeats(m: Coins, w: Transfer, i: nat)
    requires i < |w.Body().inputs| && Spends(w.Body())[i] !in m - set c | c in Spends(w.Body())[..i]
    ensures !(NoDup(Spends(w.Body())) && Present(m, w))
  {
    var spends := Spends(w.Body());
    if NoDup(spends) {
      assert spends == spends[..i] + ([spends[i]] + spends[i + 1..]);
      NoDupAppend(spends[..i], [spends[i]] + spends[i + 1..]);
      assert spends[i] in spends;
    }
  }

  /** What output `i` adds to a set of coins. */
  function WithOutput(m: Coins, w: Transfer, owner: Owner, i: nat): Coins
    requires i < |w.Body().outputs| && i < |w.addressByOutputIndex|
  {
    match owner(w.addressByOutputIndex[i])
    case None => m
    case Some(address) => m[Outpoint(IdOf(w.Body()), i) := NewCoin(w, i, address)]
  }

  ghost predicate IsNewOutput(m: Coins, w: Transfer, owner: Owner, i: nat)
    requires i < |w.addressByOutputIndex|
  {
    owner(w.addressByOutputIndex[i]).Some? ==> Outpoint(IdOf(w.Body()), i) !in m
  }

  lemma OneMoreOutput(m: Coins, w: Transfer, owner: Owner, i: nat)
    requires i < |w.Body().outputs| && i < |w.addressByOutputIndex|
    ensures WithOutput(m + OwnedOutputs(w, owner, i), w, owner, i) == m + OwnedOutputs(w, owner, i + 1)
    ensures m.Keys !! OwnedOutputs(w, owner, i + 1).Keys ==>
      m.Keys !! OwnedOutputs(w, owner, i).Keys && IsNewOutput(m + OwnedOutputs(w, owner, i), w, owner, i)
  {
    hide IdOf;
    var before, after, c := OwnedOutputs(w, owner, i), OwnedOutputs(w, owner, i + 1), Outpoint(IdOf(w.Body()), i);
    assert after == WithOutput(before, w, owner, i);
    assert c !in before;
    hide OwnedOutputs, NewCoin;
  }

  /** The index once the first `i` outputs have been added to the coins `m`. */
  ghost predicate Added(m: Coins, sorted: seq<Utxo>, now: Coins, w: Transfer, owner: Owner, i: nat, agreed: bool)
    requires i <= |w.Body().outputs| && i <= |w.addressByOutputIndex|
  {
    && now == m + OwnedOutputs(w, owner, i)
    && (agreed && m.Keys !! OwnedOutputs(w, owner, i).Keys ==> Agrees(sorted, now))
  }

  lemma NothingAdded(sorted: seq<Utxo>, m: Coins, w: Transfer, owner: Owner)
    ensures Added(m, sorted, m, w, owner, 0, Agrees(sorted, m))
  {
    hide Agrees;
    assert m + OwnedOutputs(w, owner, 0) == m;
  }

  lemma AddedOneMore(m: Coins, sorted: seq<Utxo>, now: Coins, moreSorted: seq<Utxo>, more: Coins, w: Transfer,
                     owner: Owner, i: nat, agreed: bool)
    requires i < |w.Body().outputs| && i < |w.addressByOutputIndex|
    requires Added(m, sorted, now, w, owner, i, agreed) && more == WithOutput(now, w, owner, i)
    requires Agrees(sorted, now) && IsNewOutput(now, w, owner, i) ==> Agrees(moreSorted, more)
    ensures Added(m, moreSorted, more, w, owner, i + 1, agreed)
  {
    hide Agrees, WithOutput, IsNewOutput, OwnedOutputs;
    OneMoreOutput(m, w, owner, i);
  }

  /** A fresh set of coins and a mempool list of transactions that spend something. */
  ghost predicate Refreshed(m: Coins, ws: seq<Transfer>) {
    Unspent(m.Keys) && forall w :: w in ws ==> WellFormed(w)
  }

  /** `kept` and `now` once the first `i` transactions have been gone through. */
  ghost predicate Replayed(m: Coins, ws: seq<Transfer>, owner: Owner, i: nat, kept: seq<Transfer>, now: Coins)
    requires i <= |ws| && AllReplayable(ws)
  {
    AllReplayable(ws[..i]) && Kept(m, ws[..i], owner) == (kept, now)
  }

  lemma ReplayBegins(m: Coins, ws: seq<Transfer>, owner: Owner)
    requires AllReplayable(ws)
    ensures Replayed(m, ws, owner, 0, [], m)
  {
  }

  lemma ReplayGoesOn(m: Coins, ws: seq<Transfer>, owner: Owner, i: nat, kept: seq<Transfer>, now: Coins)
    requires i < |ws| && AllReplayable(ws) && Replayed(m, ws, owner, i, kept, now)
    ensures Replayable(ws[i])
    ensures !Present(now, ws[i]) ==> Replayed(m, ws, owner, i + 1, kept, now)
    ensures Present(now, ws[i]) ==> Replayed(m, ws, owner, i + 1, kept + [ws[i]], Applied(now, ws[i], owner))
  {
    hide Kept, Applied, Present;
    KeptIsGreedy(m, ws, owner, i);
  }

  lemma ReplayEnds(m: Coins, ws: seq<Transfer>, owner: Owner, kept: seq<Transfer>, now: Coins)
    requires AllReplayable(ws) && Replayed(m, ws, owner, |ws|, kept, now)
    ensures Kept(m, ws, owner) == (kept, now)
  {
    assert ws[..|ws|] == ws;
  }

  lemma PresentCanApply(m: Coins, w: Transfer)
    requires Replayable(w)
    ensures Present(m, w) <==> CanApply(m, w)
  {
  }

  lemma FreshWhenPresent(m: Coins, ws: seq<Transfer>, w: Transfer, owner: Owner)
    requires Refreshed(m, ws) && w in ws && Replayable(w) && Present(m, w)
    ensures m.Keys !! Created(w, owner).Keys && Refreshed(Applied(m, w, owner), ws)
  {
    hide Created, Applied;
    ApplyKeepsUnspent(m, w, owner);
  }

  lemma GatheredIs(owner: Owner, view: View)
    ensures
      var exclude := Excluded(view.mempool);
      var confirmed, received :=
        Collect(Confirmed(owner, exclude), view.utxos), Collect(ReceivedAt(owner, exclude), view.mempool);
      && (Gathered(owner, view).Ok? <==> confirmed.Ok? && received.Ok?)
      && (Gathered(owner, view).Ok? ==> Gathered(owner, view).value == confirmed.value + received.value)
  {
  }

  class UtxoManager {
    const addressManager: AddressManager
    const coinbaseMaturity: nat
    var utxosSortedByAmount: seq<Utxo>
    var utxosByOutpoint: Coins
    var mempoolTransactions: seq<Transfer>

    /** Which wallet address a payee's address belongs to, now. */
    ghost function Owner(): Owner
      reads addressManager
    {
      OwnerIn(addressManager.addresses, addressManager.scheme.text)
    }

    /** The index alone: nothing in the map is missing from the list, all at registered addresses. */
    ghost predicate Indexed()
      reads this`utxosSortedByAmount, this`utxosByOutpoint, addressManager
    {
      && addressManager.Valid() && Lists(utxosSortedByAmount, utxosByOutpoint)
      && Registered(addressManager.scheme, addressManager.addresses.Keys, utxosByOutpoint)
    }

    /** What holds whatever the node says: no operation traps on the index itself. */
    ghost predicate Usable()
      reads this, addressManager
    {
      Indexed() && AllReplayable(mempoolTransactions)
    }

    /** The two forms hold the same coins, and all of them are at registered addresses. */
    ghost predicate Valid()
      reads this, addressManager
    {
      Usable() && Agrees(utxosSortedByAmount, utxosByOutpoint)
    }

    constructor (addressManager: AddressManager, coinbaseMaturity: nat)
      requires addressManager.Valid()
      ensures Valid() && this.addressManager == addressManager && this.coinbaseMaturity == coinbaseMaturity
      ensures utxosByOutpoint == map[] && mempoolTransactions == []
    {
      this.addressManager, this.coinbaseMaturity := addressManager, coinbaseMaturity;
      utxosSortedByAmount, utxosByOutpoint, mempoolTransactions := [], map[], [];
    }

    predicate IsUtxoUnspendable(u: Utxo, virtualDaaScore: nat) {
      Selection.Unspendable(coinbaseMaturity, u, virtualDaaScore)
    }

    method BinarySearchByAmount(amount: nat) returns (k: nat)
      requires Ascending(utxosSortedByAmount)
      ensures IsPosition(utxosSortedByAmount, amount, k)
    {
      var low, high := 0, |utxosSortedByAmount|;
      while low < high
        invariant 0 <= low <= high <= |utxosSortedByAmount|
        invariant forall i :: 0 <= i < low ==> Amount(utxosSortedByAmount[i]) < amount
        invariant forall i :: high <= i < |utxosSortedByAmount| ==> Amount(utxosSortedByAmount[i]) > amount
      {
        var middle := (low + high) / 2;
        var existing := utxosSortedByAmount[middle].entry.amount;
        if existing == amount {
          return middle;
        } else if existing < amount {
          low := middle + 1;
        } else {
          high := middle;
        }
      }
      k := low;
    }

    method InsertUtxo(c: Coin, u: Utxo) returns (ghost position: nat)
      requires u.outpoint == c && Lists(utxosSortedByAmount, utxosByOutpoint)
      modifies this`utxosSortedByAmount, this`utxosByOutpoint
      ensures utxosByOutpoint == old(utxosByOutpoint)[c := u]
      ensures position <= |old(utxosSortedByAmount)|
      ensures utxosSortedByAmount == InsertAt(old(utxosSortedByAmount), u, position)
      ensures Lists(utxosSortedByAmount, utxosByOutpoint)
      ensures old(Agrees(utxosSortedByAmount, utxosByOutpoint)) ==>
        (Agrees(utxosSortedByAmount, utxosByOutpoint) <==> c !in old(utxosByOutpoint))
    {
      ghost var sorted, m := utxosSortedByAmount, utxosByOutpoint;
      utxosByOutpoint := utxosByOutpoint[c := u];
      var k := BinarySearchByAmount(u.entry.amount);
      utxosSortedByAmount := utxosSortedByAmount[..k] + [u] + utxosSortedByAmount[k..];
      position := k;
      PositionKeepsOrder(sorted, u, k);
      assert utxosSortedByAmount == InsertAt(sorted, u, k);
      hide Agrees, InsertAt, Ascending;
      InsertLists(sorted, m, u, k);
      if Agrees(sorted, m) {
        InsertAgrees(sorted, m, u, k);
      }
    }

    method RemoveUtxo(c: Coin) returns (r: Outcome)
      requires Lists(utxosSortedByAmount, utxosByOutpoint)
      modifies this`utxosSortedByAmount, this`utxosByOutpoint
      ensures r == if c in old(utxosByOutpoint) then Pass else Fail(MissingElement)
      ensures utxosByOutpoint == old(utxosByOutpoint) - {c}
      ensures Lists(utxosSortedByAmount, utxosByOutpoint)
      ensures old(Agrees(utxosSortedByAmount, utxosByOutpoint)) ==> Agrees(utxosSortedByAmount, utxosByOutpoint)
    {
      if c !in utxosByOutpoint {
        assert utxosByOutpoint - {c} == utxosByOutpoint;
        return Fail(MissingElement);
      }
      ghost var sorted, m := utxosSortedByAmount, utxosByOutpoint;
      utxosByOutpoint := utxosByOutpoint - {c};
      var position := 0;
      while position < |utxosSortedByAmount| && utxosSortedByAmount[position].outpoint != c
        invariant utxosSortedByAmount == sorted && 0 <= position <= |sorted|
        invariant forall i :: 0 <= i < position ==> sorted[i].outpoint != c
      {
        position := position + 1;
      }
      assert c in Outpoints(sorted);
      utxosSortedByAmount := utxosSortedByAmount[..position] + utxosSortedByAmount[position + 1..];
      assert utxosSortedByAmount == RemoveAt(sorted, position);
      hide Agrees, Lists;
      RemoveLists(sorted, m, position);
      if Agrees(sorted, m) {
        RemoveAgrees(sorted, m, position);
      }
      r := Pass;
    }

    /** The first loop of apply_mempool_transaction: it traps on a coin that is not there. */
    method SpendInputs(w: Transfer) returns (r: Outcome)
      requires Indexed()
      modifies this`utxosSortedByAmount, this`utxosByOutpoint
      ensures r.Pass? <==> NoDup(Spends(w.Body())) && Present(old(utxosByOutpoint), w)
      ensures r.Pass? ==> utxosByOutpoint == old(utxosByOutpoint) - SpentSet(w)
      ensures Indexed()
      ensures old(Agrees(utxosSortedByAmount, utxosByOutpoint)) ==> Agrees(utxosSortedByAmount, utxosByOutpoint)
    {
      hide Lists, Agrees, OneOf, Genuine, CacheIsDerived;
      var inputs, spends := w.Body().inputs, Spends(w.Body());
      ghost var m := utxosByOutpoint;
      for i := 0 to |inputs|
        invariant Indexed()
        invariant old(Agrees(utxosSortedByAmount, utxosByOutpoint)) ==> Agrees(utxosSortedByAmount, utxosByOutpoint)
        invariant utxosByOutpoint == m - set c | c in spends[..i]
        invariant NoDup(spends[..i]) && forall c :: c in spends[..i] ==> c in m
      {
        var removed := RemoveUtxo(inputs[i].previousOutpoint);
        assert spends[..i + 1] == spends[..i] + [spends[i]];
        if removed.Fail? {
          MissesOrRepeats(m, w, i);
          return removed;
        }
      }
      assert spends[..|inputs|] == spends;
      r := Pass;
    }

    /** One round of the second loop: an output to a registered address becomes a coin. */
    method AddOutput(w: Transfer, i: nat)
      requires i < |w.Body().outputs| && i < |w.addressByOutputIndex| && Indexed()
      modifies this`utxosSortedByAmount, this`utxosByOutpoint
      ensures utxosByOutpoint == WithOutput(old(utxosByOutpoint), w, Owner(), i) && Indexed()
      ensures old(Agrees(utxosSortedByAmount, utxosByOutpoint)) && IsNewOutput(old(utxosByOutpoint), w, Owner(), i) ==>
        Agrees(utxosSortedByAmount, utxosByOutpoint)
    {
      hide Lists, Agrees, Genuine, CacheIsDerived, OneOf, Ascending, InsertAt;
      var output := w.Body().outputs[i];
      var address := addressManager.WalletAddressFromString(addressManager.scheme.text(w.addressByOutputIndex[i]));
      if address.None? {
        return;
      }
      OwnerIsRegistered(addressManager.scheme, addressManager.addresses, w.addressByOutputIndex[i]);
      var c := Outpoint(IdOf(w.Body()), i);
      var _ := InsertUtxo(c,
        WalletUtxo(c, WalletUtxoEntry(output.value, output.script, 0, false, false), address.value));
    }

    /** The second loop of apply_mempool_transaction: it traps on an output without an address. */
    method AddOutputs(w: Transfer) returns (r: Outcome)
      requires Indexed()
      modifies this`utxosSortedByAmount, this`utxosByOutpoint
      ensures r.Pass? <==> |w.Body().outputs| <= |w.addressByOutputIndex|
      ensures r.Pass? ==>
        && Indexed()
        && Added(old(utxosByOutpoint), utxosSortedByAmount, utxosByOutpoint, w, Owner(), |w.Body().outputs|,
                 old(Agrees(utxosSortedByAmount, utxosByOutpoint)))
    {
      hide Agrees, Indexed, Owner, Added, WithOutput, IsNewOutput;
      ghost var m, agreed := utxosByOutpoint, Agrees(utxosSortedByAmount, utxosByOutpoint);
      NothingAdded(utxosSortedByAmount, m, w, Owner());
      for i := 0 to |w.Body().outputs|
        invariant i <= |w.addressByOutputIndex| && Indexed()
        invariant Added(m, utxosSortedByAmount, utxosByOutpoint, w, Owner(), i, agreed)
      {
        if i >= |w.addressByOutputIndex| {
          return Fail(MissingElement);
        }
        ghost var sorted, now := utxosSortedByAmount, utxosByOutpoint;
        AddOutput(w, i);
        AddedOneMore(m, sorted, now, utxosSortedByAmount, utxosByOutpoint, w, Owner(), i, agreed);
      }
      r := Pass;
    }

    method ApplyMempoolTransaction(w: Transfer) returns (r: Outcome)
      requires Indexed()
      modifies this`utxosSortedByAmount, this`utxosByOutpoint
      ensures r.Pass? <==> CanApply(old(utxosByOutpoint), w)
      ensures r.Pass? ==> utxosByOutpoint == Applied(old(utxosByOutpoint), w, Owner()) && Indexed()
      ensures
        (&& r.Pass? && old(Agrees(utxosSortedByAmount, utxosByOutpoint))
         && old(utxosByOutpoint).Keys !! Created(w, Owner()).Keys) ==> Agrees(utxosSortedByAmount, utxosByOutpoint)
    {
      hide Lists, Agrees, Indexed, OwnedOutputs, NoDup, Owner;
      r := SpendInputs(w);
      if r.Fail? {
        return r;
      }
      r := AddOutputs(w);
    }

    method AddMempoolTransaction(w: Transfer) returns (r: Outcome)
      requires Usable()
      modifies this
      ensures mempoolTransactions == old(mempoolTransactions) + [w]
      ensures r.Pass? <==> CanApply(old(utxosByOutpoint), w)
      ensures r.Pass? ==> utxosByOutpoint == Applied(old(utxosByOutpoint), w, Owner()) && Usable()
      ensures r.Pass? && old(Valid()) && old(utxosByOutpoint).Keys !! Created(w, Owner()).Keys ==> Valid()
    {
      hide Lists, Agrees, Genuine, CacheIsDerived, OneOf, Applied, Created, NoDup, Registered;
      mempoolTransactions := mempoolTransactions + [w];
      r := ApplyMempoolTransaction(w);
    }

    method ContainsInputs(w: Transfer) returns (present: bool)
      ensures present <==> Present(utxosByOutpoint, w)
    {
      var inputs := w.Body().inputs;
      for i := 0 to |inputs|
        invariant forall j :: 0 <= j < i ==> Spends(w.Body())[j] in utxosByOutpoint
      {
        if inputs[i].previousOutpoint !in utxosByOutpoint {
          assert Spends(w.Body())[i] in Spends(w.Body());
          return false;
        }
      }
      present := true;
    }

    /** The mempool list is gone through once, keeping what can be replayed; nothing traps. */
    method ApplyMempoolTransactionsAfterUpdate()
      requires Usable()
      modifies this
      ensures Usable()
      ensures (mempoolTransactions, utxosByOutpoint) == Kept(old(utxosByOutpoint), old(mempoolTransactions), Owner())
      ensures old(Valid()) && Refreshed(old(utxosByOutpoint), old(mempoolTransactions)) ==> Valid()
    {
      hide Agrees, Indexed, Kept, Replayable, Applied, Unspent, WellFormed, Present, CanApply, Created;
      ghost var m, owner, sound := utxosByOutpoint, Owner(), Valid() && Refreshed(utxosByOutpoint, mempoolTransactions);
      var previous := mempoolTransactions;
      mempoolTransactions := [];
      ReplayBegins(m, previous, owner);
      for i := 0 to |previous|
        invariant Usable() && AllReplayable(previous)
        invariant Replayed(m, previous, owner, i, mempoolTransactions, utxosByOutpoint)
        invariant sound ==> Agrees(utxosSortedByAmount, utxosByOutpoint) && Refreshed(utxosByOutpoint, previous)
      {
        var w := previous[i];
        ReplayGoesOn(m, previous, owner, i, mempoolTransactions, utxosByOutpoint);
        var present := ContainsInputs(w);
        if !present {
          continue;
        }
        if sound {
          FreshWhenPresent(utxosByOutpoint, previous, w, owner);
        }
        PresentCanApply(utxosByOutpoint, w);
        var applied := AddMempoolTransaction(w);
      }
      ReplayEnds(m, previous, owner, mempoolTransactions, utxosByOutpoint);
    }

    method UpdateUtxosByOutpoint(us: seq<Utxo>)
      modifies this`utxosByOutpoint
      ensures utxosByOutpoint == ByOutpoint(us)
    {
      utxosByOutpoint := map[];
      for i := 0 to |us|
        invariant utxosByOutpoint == ByOutpoint(us[..i])
      {
        assert us[..i + 1][..i] == us[..i];
        utxosByOutpoint := utxosByOutpoint[us[i].outpoint := us[i]];
      }
      assert us[..|us|] == us;
    }

    /** A refresh: the node's coins replace the index, then the mempool list is replayed over them.
        It traps only on a response that lacks verbose data or names an unregistered address. The
        index is valid again when the response names no coin twice. */
    method UpdateUtxoSet(view: View) returns (r: Outcome)
      requires Usable()
      modifies this
      ensures r.Pass? <==> Gathered(Owner(), view).Ok?
      ensures r.Fail? ==> unchanged(this) && r == Fail(MissingElement)
      ensures r.Pass? ==>
        var m := ByOutpoint(Gathered(Owner(), view).value);
        && Usable()
        && (mempoolTransactions, utxosByOutpoint) == Kept(m, old(mempoolTransactions), Owner())
        && (NoDup(Outpoints(Gathered(Owner(), view).value)) && Refreshed(m, old(mempoolTransactions)) ==> Valid())
    {
      hide Agrees, Lists, Kept, Replayable, Unspent, WellFormed, Registered, Gathered, AllReplayable, Outpoints, NoDup,
        ByOutpoint, SortedByAmount, Excluded;
      ghost var owner := Owner();
      GatheredIs(owner, view);
      var exclude := ExcludedOutpoints(view.mempool);
      var confirmed := ConfirmedUtxos(OwnerIn(addressManager.addresses, addressManager.scheme.text), exclude,
        view.utxos);
      if confirmed.Err? {
        return Fail(MissingElement);
      }
      var received := ReceivedUtxos(OwnerIn(addressManager.addresses, addressManager.scheme.text), exclude,
        view.mempool);
      if received.Err? {
        return Fail(MissingElement);
      }
      var utxos := confirmed.value + received.value;
      GatheredIsRegistered(addressManager.scheme, addressManager.addresses, view);
      RebuiltAgrees(utxos);
      utxosSortedByAmount := SortedByAmount(utxos);
      UpdateUtxosByOutpoint(utxos);
      ApplyMempoolTransactionsAfterUpdate();
      r := Pass;
    }
  }
}
