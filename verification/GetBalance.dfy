/** The balance the wallet reports (daemon/src/service/get_balance.rs), and that it is what a
    send-all can spend. */
module GetBalance {
  import opened Wrappers
  import opened Sequences
  import opened Model
  import opened AddressBook
  import opened Mass
  import opened Selection
  import opened SelectionTheorems
  import opened Ledger
  import opened UtxoIndex
  import opened UtxoManager
  import opened SyncManager
  import opened Handlers

  datatype BalancesEntry = BalancesEntry(available: nat, pending: nat)
  {
    function AddAvailable(amount: nat): BalancesEntry {
      BalancesEntry(available + amount, pending)
    }

    function AddPending(amount: nat): BalancesEntry {
      BalancesEntry(available, pending + amount)
    }

    function Add(other: BalancesEntry): BalancesEntry {
      AddAvailable(other.available).AddPending(other.pending)
    }
  }

  datatype AddressBalances = AddressBalances(address: string, available: nat, pending: nat)

  datatype Response = Response(available: nat, pending: nat, addressBalances: seq<AddressBalances>)

  function IsAvailable(maturity: nat, score: nat): Utxo -> bool {
    (u: Utxo) => !Unspendable(maturity, u, score)
  }

  function IsPending(maturity: nat, score: nat): Utxo -> bool {
    (u: Utxo) => Unspendable(maturity, u, score)
  }

  function At(f: Utxo -> bool, w: WalletAddress): Utxo -> bool {
    (u: Utxo) => f(u) && u.address == w
  }

  /** What the coins that pass `f` are worth together. */
  function WorthOf(f: Utxo -> bool, us: seq<Utxo>): nat {
    SumOf(Amount, Filter(f, us))
  }

  lemma WorthOfStep(f: Utxo -> bool, us: seq<Utxo>, i: nat)
    requires i < |us|
    ensures WorthOf(f, us[..i + 1]) == WorthOf(f, us[..i]) + if f(us[i]) then Amount(us[i]) else 0
  {
    FilterPrefix(f, us, i);
    if f(us[i]) {
      SumOfSnoc(Amount, Filter(f, us[..i]), us[i]);
    } else {
      assert Filter(f, us[..i]) + [] == Filter(f, us[..i]);
    }
  }

  lemma WorthOfFirst(f: Utxo -> bool, us: seq<Utxo>)
    requires us != []
    ensures WorthOf(f, us) == WorthOf(f, us[1..]) + if f(us[0]) then Amount(us[0]) else 0
  {
    if f(us[0]) {
      assert Filter(f, us)[1..] == Filter(f, us[1..]);
    } else {
      assert Filter(f, us) == Filter(f, us[1..]);
    }
  }

  /** Every coin is either available or pending. */
  lemma {:induction false} AvailableAndPending(maturity: nat, score: nat, us: seq<Utxo>)
    ensures WorthOf(IsAvailable(maturity, score), us) + WorthOf(IsPending(maturity, score), us) == SumOf(Amount, us)
  {
    if us != [] {
      AvailableAndPending(maturity, score, us[1..]);
      WorthOfFirst(IsAvailable(maturity, score), us);
      WorthOfFirst(IsPending(maturity, score), us);
    }
  }

  /* ----- buckets ----- */

  type Buckets = map<WalletAddress, BalancesEntry>

  function Available(b: BalancesEntry): nat {
    b.available
  }

  function Pending(b: BalancesEntry): nat {
    b.pending
  }

  ghost function Total(f: BalancesEntry -> nat, m: Buckets): nat
    decreases |m|
  {
    if m == map[] then 0
    else
      var w :| w in m;
      f(m[w]) + Total(f, m - {w})
  }

  lemma {:induction false} TotalWithout(f: BalancesEntry -> nat, m: Buckets, w: WalletAddress)
    requires w in m
    ensures Total(f, m) == f(m[w]) + Total(f, m - {w})
    decreases |m|
  {
    var x :| x in m && Total(f, m) == f(m[x]) + Total(f, m - {x});
    if w != x {
      TotalWithout(f, m - {x}, w);
      TotalWithout(f, m - {w}, x);
      assert m - {x} - {w} == m - {w} - {x};
    }
  }

  /** What the bucket of an address held, a missing one being empty. */
  function Bucket(m: Buckets, w: WalletAddress): BalancesEntry {
    if w in m then m[w] else BalancesEntry(0, 0)
  }

  lemma TotalWith(f: BalancesEntry -> nat, m: Buckets, w: WalletAddress, b: BalancesEntry)
    requires f(BalancesEntry(0, 0)) == 0
    ensures Total(f, m[w := b]) + f(Bucket(m, w)) == Total(f, m) + f(b)
  {
    var n := m[w := b];
    TotalWithout(f, n, w);
    if w in m {
      TotalWithout(f, m, w);
      assert n - {w} == m - {w};
    } else {
      assert n - {w} == m;
    }
  }

  /** Each address's bucket holds the worth of its own coins, and the buckets hold them all. */
  ghost predicate Sorted(m: Buckets, maturity: nat, score: nat, us: seq<Utxo>) {
    && (forall w :: Bucket(m, w) ==
          BalancesEntry(WorthOf(At(IsAvailable(maturity, score), w), us),
            WorthOf(At(IsPending(maturity, score), w), us)))
    && (forall w :: w in m <==> exists u :: u in us && u.address == w)
    && Total(Available, m) == WorthOf(IsAvailable(maturity, score), us)
    && Total(Pending, m) == WorthOf(IsPending(maturity, score), us)
  }

  function Counted(m: Buckets, maturity: nat, score: nat, u: Utxo): Buckets {
    var b := Bucket(m, u.address);
    m[u.address := if Unspendable(maturity, u, score) then b.AddPending(Amount(u)) else b.AddAvailable(Amount(u))]
  }

  lemma CountOne(m: Buckets, maturity: nat, score: nat, us: seq<Utxo>, i: nat)
    requires i < |us| && Sorted(m, maturity, score, us[..i])
    ensures Sorted(Counted(m, maturity, score, us[i]), maturity, score, us[..i + 1])
  {
    hide WorthOf, Total;
    var available, pending, u := IsAvailable(maturity, score), IsPending(maturity, score), us[i];
    var n := Counted(m, maturity, score, u);
    forall w
      ensures Bucket(n, w)
        == BalancesEntry(WorthOf(At(available, w), us[..i + 1]), WorthOf(At(pending, w), us[..i + 1]))
    {
      WorthOfStep(At(available, w), us, i);
      WorthOfStep(At(pending, w), us, i);
    }
    WorthOfStep(available, us, i);
    WorthOfStep(pending, us, i);
    TotalWith(Available, m, u.address, n[u.address]);
    TotalWith(Pending, m, u.address, n[u.address]);
    assert us[..i + 1] == us[..i] + [u];
  }

  lemma NothingCounted(maturity: nat, score: nat)
    ensures Sorted(map[], maturity, score, [])
  {
  }

  /** One line for each address, saying what its bucket holds. */
  ghost predicate Lines(s: Scheme, m: Buckets, left: set<WalletAddress>, lines: seq<AddressBalances>) {
    && (forall e :: e in lines ==> exists w :: w in m && IsLine(s, m, w, e))
    && (forall w :: w in m && w !in left ==> exists e :: e in lines && IsLine(s, m, w, e))
  }

  ghost predicate IsLine(s: Scheme, m: Buckets, w: WalletAddress, e: AddressBalances)
    requires w in m
  {
    TextOf(s, w) == Ok(e.address) && e.available == m[w].available && e.pending == m[w].pending
  }

  lemma OneMoreLine(s: Scheme, m: Buckets, left: set<WalletAddress>, lines: seq<AddressBalances>, w: WalletAddress,
                    e: AddressBalances)
    requires Lines(s, m, left, lines) && w in m && IsLine(s, m, w, e)
    ensures Lines(s, m, left - {w}, lines + [e])
  {
    hide IsLine;
    forall x | x in m && x !in left - {w} ensures exists e' :: e' in lines + [e] && IsLine(s, m, x, e') {
      if x == w {
        assert e in lines + [e];
      } else {
        var e' :| e' in lines && IsLine(s, m, x, e');
        assert e' in lines + [e];
      }
    }
  }

  /* ----- the request ----- */

  /** The first loop: each coin goes to its address's bucket. */
  method SortIntoBuckets(u: UtxoManager, score: nat) returns (balances: Buckets)
    ensures Sorted(balances, u.coinbaseMaturity, score, u.utxosSortedByAmount)
  {
    hide Sorted;
    var us := u.utxosSortedByAmount;
    balances := map[];
    NothingCounted(u.coinbaseMaturity, score);
    for i := 0 to |us|
      invariant Sorted(balances, u.coinbaseMaturity, score, us[..i])
    {
      CountOne(balances, u.coinbaseMaturity, score, us, i);
      var b := if us[i].address in balances then balances[us[i].address] else BalancesEntry(0, 0);
      var unspendable := u.IsUtxoUnspendable(us[i], score);
      var amount := us[i].entry.amount;
      balances := balances[us[i].address := if unspendable then b.AddPending(amount) else b.AddAvailable(amount)];
    }
    assert us[..|us|] == us;
  }

  /** Over a valid index: available and pending make up the whole index, and the lines, when asked
      for, say for each address what its own coins are worth. It fails only where the address of a
      bucket does not derive; `BucketsDerive` shows that there is none. */
  ghost predicate IsBalance(u: UtxoManager, score: nat, perAddress: bool, r: Result<Response>, balances: Buckets)
    reads u, u.addressManager
  {
    && Sorted(balances, u.coinbaseMaturity, score, u.utxosSortedByAmount)
    && match r
       case Err(_) => exists w :: w in balances && Derived(u.addressManager.scheme, w).Err?
       case Ok(response) =>
         && response.available == WorthOf(IsAvailable(u.coinbaseMaturity, score), u.utxosSortedByAmount)
         && response.pending == WorthOf(IsPending(u.coinbaseMaturity, score), u.utxosSortedByAmount)
         && response.available + response.pending == Worth(u.utxosByOutpoint)
         && (if perAddress then Lines(u.addressManager.scheme, balances, {}, response.addressBalances)
             else response.addressBalances == [])
  }

  /** Only a wallet in sync is asked. */
  method GetBalance(m: SyncManager, u: UtxoManager, score: nat, includeBalancePerAddress: bool)
    returns (r: Result<Response>, ghost balances: Buckets)
    requires u.Valid() && m.addressManager == u.addressManager
    modifies u.addressManager`addressCache
    ensures u.Valid() && (!m.IsSynced() ==> r == Err(NotYetSynced))
    ensures m.IsSynced() ==> IsBalance(u, score, includeBalancePerAddress, r, balances)
  {
    var synced := CheckIsSynced(m);
    if synced.Fail? {
      return Err(synced.error), map[];
    }
    hide IsBalance, UtxoManager.Valid;
    r, balances := Balance(u, score, includeBalancePerAddress);
  }

  /** What the wallet answers once it is in sync. */
  method Balance(u: UtxoManager, score: nat, includeBalancePerAddress: bool)
    returns (r: Result<Response>, ghost balances: Buckets)
    requires u.Valid()
    modifies u.addressManager`addressCache
    ensures u.Valid() && IsBalance(u, score, includeBalancePerAddress, r, balances)
  {
    hide Sorted, Lines, Total, WorthOf, Agrees, Lists, Worth;
    var buckets := SortIntoBuckets(u, score);
    balances := buckets;
    ghost var s, us, coins := u.addressManager.scheme, u.utxosSortedByAmount, u.utxosByOutpoint;
    SortedTotals(buckets, u.coinbaseMaturity, score, us);
    AvailableAndPending(u.coinbaseMaturity, score, us);
    WorthOfList(us, coins);
    var total, lines: seq<AddressBalances> := BalancesEntry(0, 0), [];
    var left := buckets.Keys;
    NoLines(s, buckets);
    while left != {}
      invariant u.Valid() && left <= buckets.Keys
      invariant total.available + Total(Available, Only(buckets, left)) == Total(Available, buckets)
      invariant total.pending + Total(Pending, Only(buckets, left)) == Total(Pending, buckets)
      invariant if includeBalancePerAddress then Lines(s, buckets, left, lines) else lines == []
      decreases |left|
    {
      var w :| w in left;
      var address := u.addressManager.KaspaAddressFromWalletAddress(w, true);
      if address.Err? {
        return Err(address.error), balances;
      }
      if includeBalancePerAddress {
        var line := AddressBalances(u.addressManager.scheme.text(address.value), buckets[w].available,
          buckets[w].pending);
        OneMoreLine(s, buckets, left, lines, w, line);
        lines := lines + [line];
      }
      TakeOne(Available, buckets, left, w);
      TakeOne(Pending, buckets, left, w);
      total := total.Add(buckets[w]);
      left := left - {w};
    }
    NothingLeft(Available, buckets);
    NothingLeft(Pending, buckets);
    r := Ok(Response(total.available, total.pending, lines));
  }

  ghost function Only(m: Buckets, left: set<WalletAddress>): Buckets {
    m - (m.Keys - left)
  }

  lemma TakeOne(f: BalancesEntry -> nat, m: Buckets, left: set<WalletAddress>, w: WalletAddress)
    requires w in left && left <= m.Keys
    ensures Total(f, Only(m, left)) == f(m[w]) + Total(f, Only(m, left - {w}))
  {
    TotalWithout(f, Only(m, left), w);
    assert Only(m, left) - {w} == Only(m, left - {w});
  }

  lemma NothingLeft(f: BalancesEntry -> nat, m: Buckets)
    ensures Only(m, m.Keys) == m
    ensures Total(f, Only(m, {})) == 0
  {
    assert Only(m, {}) == map[];
  }

  lemma NoLines(s: Scheme, m: Buckets)
    ensures Lines(s, m, m.Keys, []) && Only(m, m.Keys) == m
  {
  }

  lemma SortedTotals(m: Buckets, maturity: nat, score: nat, us: seq<Utxo>)
    requires Sorted(m, maturity, score, us)
    ensures Total(Available, m) == WorthOf(IsAvailable(maturity, score), us)
    ensures Total(Pending, m) == WorthOf(IsPending(maturity, score), us)
  {
  }

  /** Every coin of a valid index sits at a registered address, so every bucket's address derives. */
  lemma BucketsDerive(s: Scheme, texts: set<string>, us: seq<Utxo>, m: Coins, buckets: Buckets, maturity: nat,
                      score: nat)
    requires Agrees(us, m) && Registered(s, texts, m) && Sorted(buckets, maturity, score, us)
    ensures forall w :: w in buckets ==> Derived(s, w).Ok?
  {
    forall w | w in buckets ensures Derived(s, w).Ok? {
      var u :| u in us && u.address == w;
      assert OneOf(s, m[u.outpoint].address, texts);
    }
  }

  /* ----- the balance and the spender ----- */

  /** A send-all with no sender and no chosen coins selects exactly the coins the balance counts as
      available, so what it sends and what it pays in fees add up to the available balance. */
  lemma SendAllSpendsTheBalance(p: Params, r: Request, index: seq<Utxo>, score: nat)
    requires r.isSendAll && r.from == [] && r.preselected == [] && NoDup(Outpoints(index))
    requires Select(p, r, index, score).Ok?
    ensures
      var s := Select(p, r, index, score).value;
      && s.utxos == Filter(IsAvailable(p.coinbaseMaturity, score), index)
      && SumOf(Amount, s.utxos) == WorthOf(IsAvailable(p.coinbaseMaturity, score), index)
      && s.change == 0 && s.received <= WorthOf(IsAvailable(p.coinbaseMaturity, score), index)
      && (s.utxos != [] ==>
            PerUtxoFee(p, r, s.utxos[0]).Ok? &&
            s.received + |s.utxos| * PerUtxoFee(p, r, s.utxos[0]).value
              == WorthOf(IsAvailable(p.coinbaseMaturity, score), index))
  {
    hide Select, PerUtxoFee, Filter, IsSubsequence, NoDup, SumOf;
    SelectionIsSound(p, r, index, score);
    EligibleIsAvailable(p, r, index, score);
    NothingAvailable();
  }

  lemma EligibleIsAvailable(p: Params, r: Request, index: seq<Utxo>, score: nat)
    requires r.from == [] && r.preselected == []
    ensures Candidates(p, r, index, score) == Filter(IsAvailable(p.coinbaseMaturity, score), index)
  {
    FilterSame(Eligible(p, r, score), IsAvailable(p.coinbaseMaturity, score), index);
  }

  lemma NothingAvailable()
    ensures SumOf(Amount<TxId>, []) == 0
  {
  }
}
