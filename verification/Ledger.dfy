/** What one transaction, and a list of them, does to the wallet's set of coins. The functions
    here are the specification of `UtxoManager.apply_mempool_transaction`
    (daemon/src/utxo_manager.rs); the lemmas say when it is safe and what it conserves. */
module Ledger {
  import opened Wrappers
  import opened Sequences
  import opened Model

  type Coins = map<Coin, Utxo>
  type Owner = Address -> Option<WalletAddress>

  /** Which wallet address, if any, a registered address text stands for. */
  function OwnerIn(book: map<string, WalletAddress>, text: Address -> string): Owner {
    (a: Address) => if text(a) in book then Some(book[text(a)]) else None
  }

  /* ----- one transaction ----- */

  /** The coin output `i` of `w` becomes once it is ours. */
  function NewCoin(w: Transfer, i: nat, address: WalletAddress): Utxo
    requires i < |w.Body().outputs|
  {
    var o := w.Body().outputs[i];
    WalletUtxo(Outpoint(IdOf(w.Body()), i), WalletUtxoEntry(o.value, o.script, 0, false, false), address)
  }

  /** The owned coins among the first `n` outputs. */
  function OwnedOutputs(w: Transfer, owner: Owner, n: nat): (r: Coins)
    requires n <= |w.Body().outputs| && n <= |w.addressByOutputIndex|
    ensures forall c :: c in r ==>
      && c.transactionId == IdOf(w.Body()) && c.index < n
      && owner(w.addressByOutputIndex[c.index]).Some?
      && r[c] == NewCoin(w, c.index, owner(w.addressByOutputIndex[c.index]).value)
    ensures forall i :: 0 <= i < n && owner(w.addressByOutputIndex[i]).Some? ==>
      Outpoint(IdOf(w.Body()), i) in r
  {
    if n == 0 then map[]
    else
      var m := OwnedOutputs(w, owner, n - 1);
      match owner(w.addressByOutputIndex[n - 1])
      case None => m
      case Some(address) => m[Outpoint(IdOf(w.Body()), n - 1) := NewCoin(w, n - 1, address)]
  }

  function Created(w: Transfer, owner: Owner): Coins
    requires |w.Body().outputs| <= |w.addressByOutputIndex|
  {
    OwnedOutputs(w, owner, |w.Body().outputs|)
  }

  ghost predicate CanApply(m: Coins, w: Transfer) {
    && NoDup(Spends(w.Body()))
    && (forall c :: c in Spends(w.Body()) ==> c in m)
    && |w.Body().outputs| <= |w.addressByOutputIndex|
  }

  function SpentSet(w: Transfer): set<Coin> {
    set c | c in Spends(w.Body())
  }

  function Applied(m: Coins, w: Transfer, owner: Owner): Coins
    requires |w.Body().outputs| <= |w.addressByOutputIndex|
  {
    (m - SpentSet(w)) + Created(w, owner)
  }

  /* ----- a list of transactions ----- */

  ghost function Replay(m: Coins, ws: seq<Transfer>, owner: Owner): Option<Coins>
    decreases ws
  {
    if ws == [] then Some(m)
    else if CanApply(m, ws[0]) then Replay(Applied(m, ws[0], owner), ws[1..], owner)
    else None
  }

  lemma {:induction false} ReplayAppend(m: Coins, a: seq<Transfer>, b: seq<Transfer>, owner: Owner)
    ensures Replay(m, a + b, owner) ==
      match Replay(m, a, owner) { case None => None case Some(n) => Replay(n, b, owner) }
    decreases a
  {
    if a == [] {
      assert a + b == b;
    } else {
      assert (a + b)[1..] == a[1..] + b;
      if CanApply(m, a[0]) {
        ReplayAppend(Applied(m, a[0], owner), a[1..], b, owner);
      }
    }
  }

  /** Every prefix of a list that replays, replays. */
  lemma ReplayPrefix(m: Coins, ws: seq<Transfer>, k: nat, owner: Owner)
    requires k <= |ws| && Replay(m, ws, owner).Some?
    ensures Replay(m, ws[..k], owner).Some?
    ensures k < |ws| ==> CanApply(Replay(m, ws[..k], owner).value, ws[k])
  {
    assert ws == ws[..k] + ws[k..];
    ReplayAppend(m, ws[..k], ws[k..], owner);
  }

  /* ----- unspent coins never descend from one another ----- */

  /** `c` was built, directly or through other transactions, by spending `a`. */
  ghost predicate Descends(c: Coin, a: Coin)
    decreases c
  {
    && c.transactionId.BuiltTx?
    && (a in c.transactionId.spends || exists p <- c.transactionId.spends :: Descends(p, a))
  }

  /** No coin of the set was spent to build another: true of any set of unspent coins. */
  ghost predicate Unspent(s: set<Coin>) {
    forall c, a :: c in s && a in s ==> !Descends(c, a)
  }

  lemma {:induction false} DescendsThrough(c: Coin, a: Coin, p: Coin)
    requires Descends(c, a) && a.transactionId.BuiltTx? && p in a.transactionId.spends
    ensures Descends(c, p)
    decreases c
  {
    if a in c.transactionId.spends {
      assert Descends(a, p);
    } else {
      var q :| q in c.transactionId.spends && Descends(q, a);
      DescendsThrough(q, a, p);
    }
  }

  ghost predicate WellFormed(w: Transfer) {
    && Spends(w.Body()) != []
    && |w.Body().outputs| <= |w.addressByOutputIndex|
  }

  /** Either way every output names its payee. */
  lemma IsAligned(m: Coins, w: Transfer)
    requires CanApply(m, w) || WellFormed(w)
    ensures |w.Body().outputs| <= |w.addressByOutputIndex|
  {
  }

  /** Content-addressed ids are fresh: whatever spends an unspent coin creates coins that the
      wallet cannot already hold, and that nothing it holds descends from. */
  lemma NewIdsAreFresh(s: set<Coin>, w: Transfer, c: Coin)
    requires Unspent(s) && Spends(w.Body()) != [] && forall p :: p in Spends(w.Body()) ==> p in s
    requires c.transactionId == IdOf(w.Body())
    ensures c !in s
    ensures forall a :: a in s ==> !Descends(a, c)
    ensures !Descends(c, c)
  {
    var p := Spends(w.Body())[0];
    assert Descends(c, p);
    forall a | a in s ensures !Descends(a, c) {
      if Descends(a, c) {
        DescendsThrough(a, c, p);
      }
    }
    assert forall q :: q in Spends(w.Body()) ==> q != c && !Descends(q, c);
  }

  lemma ApplyKeepsUnspent(m: Coins, w: Transfer, owner: Owner)
    requires Unspent(m.Keys) && CanApply(m, w) && WellFormed(w)
    ensures Unspent(Applied(m, w, owner).Keys)
    ensures m.Keys !! Created(w, owner).Keys
  {
    var n := Applied(m, w, owner);
    forall c | c in Created(w, owner) ensures c !in m {
      NewIdsAreFresh(m.Keys, w, c);
    }
    forall c, a | c in n && a in n ensures !Descends(c, a) {
      if a in Created(w, owner) {
        NewIdsAreFresh(m.Keys, w, a);
        if c in Created(w, owner) {
          SiblingDoesNotDescend(m.Keys, w, c, a);
        }
      } else if c in Created(w, owner) {
        assert forall p :: p in Spends(w.Body()) ==> p != a && !Descends(p, a);
      }
    }
  }

  lemma SiblingDoesNotDescend(s: set<Coin>, w: Transfer, c: Coin, a: Coin)
    requires Unspent(s) && Spends(w.Body()) != [] && forall p :: p in Spends(w.Body()) ==> p in s
    requires c.transactionId == IdOf(w.Body()) == a.transactionId
    ensures !Descends(c, a)
  {
    NewIdsAreFresh(s, w, a);
    forall p | p in c.transactionId.spends ensures p != a && !Descends(p, a) {
      assert p in s;
    }
  }

  lemma {:induction false} ReplayKeepsUnspent(m: Coins, ws: seq<Transfer>, owner: Owner)
    requires Unspent(m.Keys) && Replay(m, ws, owner).Some?
    requires forall w :: w in ws ==> WellFormed(w)
    ensures Unspent(Replay(m, ws, owner).value.Keys)
    decreases ws
  {
    if ws != [] {
      ApplyKeepsUnspent(m, ws[0], owner);
      ReplayKeepsUnspent(Applied(m, ws[0], owner), ws[1..], owner);
    }
  }

  /* ----- what the coins are worth ----- */

  ghost function Worth(m: Coins): nat
    decreases |m|
  {
    if m == map[] then 0
    else
      var c :| c in m;
      Amount(m[c]) + Worth(m - {c})
  }

  lemma {:induction false} WorthWithout(m: Coins, c: Coin)
    requires c in m
    ensures Worth(m) == Amount(m[c]) + Worth(m - {c})
    decreases |m|
  {
    var d :| d in m && Worth(m) == Amount(m[d]) + Worth(m - {d});
    if c != d {
      WorthWithout(m - {d}, c);
      WorthWithout(m - {c}, d);
      assert m - {d} - {c} == m - {c} - {d};
    }
  }

  lemma WorthWith(m: Coins, c: Coin, u: Utxo)
    requires c !in m
    ensures Worth(m[c := u]) == Worth(m) + Amount(u)
  {
    WorthWithout(m[c := u], c);
    assert m[c := u] - {c} == m;
  }

  /** The entries a transaction carries say what the coins it spends are worth. */
  ghost predicate EntriesMatch(m: Coins, w: Transfer) {
    && |w.Entries()| == |w.Body().inputs|
    && forall i :: 0 <= i < |w.Entries()| ==>
         var c := w.Body().inputs[i].previousOutpoint;
         c in m && EntryAmount(w.Entries()[i]) == Amount(m[c])
  }

  lemma {:induction false} WorthAfterSpending(m: Coins, cs: seq<Coin>, es: seq<Option<UtxoEntry>>)
    requires NoDup(cs) && |cs| == |es|
    requires forall i :: 0 <= i < |cs| ==> cs[i] in m && EntryAmount(es[i]) == Amount(m[cs[i]])
    ensures Worth(m) == Worth(m - set c | c in cs) + SumOf(EntryAmount, es)
  {
    if cs == [] {
      assert m - (set c | c in cs) == m;
    } else {
      WorthWithout(m, cs[0]);
      WorthAfterSpending(m - {cs[0]}, cs[1..], es[1..]);
      assert m - (set c | c in cs) == m - {cs[0]} - (set c | c in cs[1..]);
    }
  }

  /** The value of the first `n` outputs that go to addresses the wallet does not own. */
  function ExternalValue(w: Transfer, owner: Owner, n: nat): nat
    requires n <= |w.Body().outputs| && n <= |w.addressByOutputIndex|
  {
    if n == 0 then 0
    else if owner(w.addressByOutputIndex[n - 1]).Some? then ExternalValue(w, owner, n - 1)
    else ExternalValue(w, owner, n - 1) + w.Body().outputs[n - 1].value
  }

  function External(w: Transfer, owner: Owner): nat
    requires |w.Body().outputs| <= |w.addressByOutputIndex|
  {
    ExternalValue(w, owner, |w.Body().outputs|)
  }

  lemma NothingIsWorthNothing()
    ensures Worth(map[]) == 0
  {
  }

  lemma {:induction false} WorthUnion(m: Coins, r: Coins)
    requires m.Keys !! r.Keys
    ensures Worth(m + r) == Worth(m) + Worth(r)
    decreases |r|
  {
    hide *;
    if r == map[] {
      assert m + r == m;
      NothingIsWorthNothing();
    } else {
      var c :| c in r;
      var rest := r - {c};
      UnionStep(m, r, c);
      WorthUnion(m, rest);
      WorthWith(m + rest, c, r[c]);
      WorthWithout(r, c);
    }
  }

  lemma UnionStep(m: Coins, r: Coins, c: Coin)
    requires m.Keys !! r.Keys && c in r
    ensures c !in m + (r - {c})
    ensures m + r == (m + (r - {c}))[c := r[c]]
  {
  }

  lemma {:induction false} WorthCreated(w: Transfer, owner: Owner, n: nat)
    requires n <= |w.Body().outputs| && n <= |w.addressByOutputIndex|
    ensures Worth(OwnedOutputs(w, owner, n)) + ExternalValue(w, owner, n)
      == SumOf(Value, w.Body().outputs[..n])
  {
    if n > 0 {
      WorthCreated(w, owner, n - 1);
      SumOfPrefix(Value, w.Body().outputs, n - 1);
      if owner(w.addressByOutputIndex[n - 1]).Some? {
        var u := NewCoin(w, n - 1, owner(w.addressByOutputIndex[n - 1]).value);
        WorthWith(OwnedOutputs(w, owner, n - 1), u.outpoint, u);
      }
    }
  }

  /** Applying a transaction lowers the wallet's worth by its fee and by what it pays others. */
  lemma ApplyConserves(m: Coins, w: Transfer, owner: Owner)
    requires Unspent(m.Keys) && CanApply(m, w) && WellFormed(w) && EntriesMatch(m, w)
    ensures Worth(m) == Worth(Applied(m, w, owner)) + Fee(w) + External(w, owner)
  {
    ApplyKeepsUnspent(m, w, owner);
    var left := m - SpentSet(w);
    WorthAfterSpending(m, Spends(w.Body()), w.Entries());
    WorthUnion(left, Created(w, owner));
    WorthCreated(w, owner, |w.Body().outputs|);
    assert w.Body().outputs[..|w.Body().outputs|] == w.Body().outputs;
  }

  /* ----- runs ----- */

  /** A list of transactions that replays, each with entries that match the coins it spends. */
  ghost predicate GoodRun(m: Coins, ws: seq<Transfer>, owner: Owner)
    decreases ws
  {
    ws == [] ||
    (CanApply(m, ws[0]) && WellFormed(ws[0]) && EntriesMatch(m, ws[0])
      && GoodRun(Applied(m, ws[0], owner), ws[1..], owner))
  }

  lemma {:induction false} GoodRunReplays(m: Coins, ws: seq<Transfer>, owner: Owner)
    requires GoodRun(m, ws, owner)
    ensures Replay(m, ws, owner).Some?
    decreases ws
  {
    if ws != [] {
      GoodRunReplays(Applied(m, ws[0], owner), ws[1..], owner);
    }
  }

  lemma {:induction false} GoodRunAppend(m: Coins, a: seq<Transfer>, b: seq<Transfer>, owner: Owner)
    requires GoodRun(m, a, owner)
    requires Replay(m, a, owner).Some? ==> GoodRun(Replay(m, a, owner).value, b, owner)
    ensures GoodRun(m, a + b, owner)
    decreases a
  {
    GoodRunReplays(m, a, owner);
    if a == [] {
      assert a + b == b;
    } else {
      assert (a + b)[1..] == a[1..] + b;
      GoodRunAppend(Applied(m, a[0], owner), a[1..], b, owner);
    }
  }

  function TotalFees(ws: seq<Transfer>): int {
    if ws == [] then 0 else Fee(ws[0]) + TotalFees(ws[1..])
  }

  lemma {:induction false} TotalFeesAppend(a: seq<Transfer>, b: seq<Transfer>)
    ensures TotalFees(a + b) == TotalFees(a) + TotalFees(b)
  {
    if a == [] {
      assert a + b == b;
    } else {
      assert (a + b)[1..] == a[1..] + b;
      TotalFeesAppend(a[1..], b);
    }
  }

  ghost function TotalExternal(ws: seq<Transfer>, owner: Owner): nat
    requires forall w :: w in ws ==> WellFormed(w)
  {
    if ws == [] then 0
    else
      assert WellFormed(ws[0]);
      External(ws[0], owner) + TotalExternal(ws[1..], owner)
  }

  /** A run lowers the wallet's worth by exactly its fees and what it pays to others. */
  lemma {:induction false} RunConserves(m: Coins, ws: seq<Transfer>, owner: Owner)
    requires Unspent(m.Keys) && GoodRun(m, ws, owner)
    requires forall w :: w in ws ==> WellFormed(w)
    ensures Replay(m, ws, owner).Some?
    ensures Worth(m) == Worth(Replay(m, ws, owner).value) + TotalFees(ws) + TotalExternal(ws, owner)
    decreases ws
  {
    GoodRunReplays(m, ws, owner);
    if ws != [] {
      ApplyConserves(m, ws[0], owner);
      ApplyKeepsUnspent(m, ws[0], owner);
      RunConserves(Applied(m, ws[0], owner), ws[1..], owner);
    }
  }

  /* ----- no coin is spent twice ----- */

  /** `x` is gone and nothing left can bring it back. */
  ghost predicate Dead(m: Coins, x: Coin) {
    x !in m && forall y :: y in m ==> !Descends(x, y)
  }

  lemma SpendingKills(m: Coins, w: Transfer, owner: Owner, x: Coin)
    requires Unspent(m.Keys) && CanApply(m, w) && WellFormed(w) && x in Spends(w.Body())
    ensures Dead(Applied(m, w, owner), x)
  {
    forall y | y in Applied(m, w, owner) ensures y != x && !Descends(x, y) {
      if y in Created(w, owner) {
        NewIdsAreFresh(m.Keys, w, y);
      }
    }
  }

  lemma DeadStaysDead(m: Coins, w: Transfer, owner: Owner, x: Coin)
    requires Dead(m, x) && CanApply(m, w) && WellFormed(w)
    ensures Dead(Applied(m, w, owner), x)
  {
    var p := Spends(w.Body())[0];
    forall y | y in Applied(m, w, owner) ensures y != x && !Descends(x, y) {
      if y in Created(w, owner) {
        assert Descends(y, p);
        if Descends(x, y) {
          DescendsThrough(x, y, p);
        }
      }
    }
  }

  lemma {:induction false} DeadIsNeverSpent(m: Coins, ws: seq<Transfer>, owner: Owner, x: Coin, j: nat)
    requires Dead(m, x) && Replay(m, ws, owner).Some? && j < |ws|
    requires forall w :: w in ws ==> WellFormed(w)
    ensures x !in Spends(ws[j].Body())
    decreases ws
  {
    if j > 0 {
      DeadStaysDead(m, ws[0], owner, x);
      DeadIsNeverSpent(Applied(m, ws[0], owner), ws[1..], owner, x, j - 1);
    }
  }

  /** A list that replays spends no coin twice. */
  lemma {:induction false} ReplaySpendsOnce(m: Coins, ws: seq<Transfer>, owner: Owner, i: nat, j: nat, x: Coin)
    requires Unspent(m.Keys) && Replay(m, ws, owner).Some? && i < j < |ws|
    requires forall w :: w in ws ==> WellFormed(w)
    requires x in Spends(ws[i].Body())
    ensures x !in Spends(ws[j].Body())
    decreases ws
  {
    var n := Applied(m, ws[0], owner);
    if i == 0 {
      SpendingKills(m, ws[0], owner, x);
      DeadIsNeverSpent(n, ws[1..], owner, x, j - 1);
    } else {
      ApplyKeepsUnspent(m, ws[0], owner);
      ReplaySpendsOnce(n, ws[1..], owner, i - 1, j - 1, x);
    }
  }
}
