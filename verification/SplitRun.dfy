/** Running one level's splits over the wallet's coins: they use up the original inputs and leave
    exactly the coins the merge spends. */
module SplitRun {
  import opened Wrappers
  import opened Sequences
  import opened Model
  import opened Mass
  import opened Selection
  import opened Compounding
  import opened CompoundingFacts
  import opened Ledger

  function ToSet(cs: seq<Coin>): set<Coin> {
    set c | c in cs
  }

  ghost predicate AllWellFormed(ss: seq<Transfer>) {
    forall s :: s in ss ==> WellFormed(s)
  }

  /** The coins a list of transactions creates. */
  ghost function Outs(ss: seq<Transfer>, owner: Owner): Coins
    requires AllWellFormed(ss)
  {
    if ss == [] then map[]
    else
      var last := ss[|ss| - 1];
      assert WellFormed(last);
      Outs(ss[..|ss| - 1], owner) + Created(last, owner)
  }

  function MergeOutpoints(r: Request, ss: seq<Transfer>): seq<Coin> {
    Map(UtxoOutpoint, Map(MergeCoin(r), ss))
  }

  /** `w`'s inputs are unspent coins of `m`, and its entries say what they are worth. */
  ghost predicate Spendable(m: Coins, w: Transfer) {
    Aligned(w) && NoDup(Spends(w.Body())) && EntriesMatch(m, w)
  }

  /** The coins splits create are the ones the merge takes, each once and for its value. */
  ghost predicate LeavesMergeCoins(ss: seq<Transfer>, r: Request, owner: Owner)
    requires AllWellFormed(ss)
  {
    && Outs(ss, owner).Keys == ToSet(MergeOutpoints(r, ss))
    && NoDup(MergeOutpoints(r, ss))
    && (forall s :: s in ss ==>
          var u := MergeCoin(r)(s);
          u.outpoint in Outs(ss, owner) && Amount(Outs(ss, owner)[u.outpoint]) == Amount(u))
  }

  ghost predicate AfterSplits(m: Coins, now: Coins, gone: set<Coin>, ss: seq<Transfer>, r: Request, owner: Owner) {
    && AllWellFormed(ss)
    && LeavesMergeCoins(ss, r, owner)
    && now == (m - gone) + Outs(ss, owner)
    && Outs(ss, owner).Keys !! m.Keys
    && Unspent(now.Keys)
  }

  /** A split creates one coin, the one the merge takes. */
  lemma SplitCreates(p: Params, r: Request, s: Transfer, coins: seq<Utxo>, owner: Owner)
    requires IsSplitOf(p, r, s, coins) && owner(r.change).Some?
    ensures
      var u := MergeCoin(r)(s);
      && Created(s, owner).Keys == {u.outpoint}
      && u.outpoint.transactionId == IdOf(s.Body())
      && Amount(Created(s, owner)[u.outpoint]) == Amount(u)
  {
    assert Outpoint(IdOf(s.Body()), 0) in Created(s, owner);
  }

  lemma SplitCanRun(m: Coins, now: Coins, gone: set<Coin>, ss: seq<Transfer>, p: Params, r: Request,
                    s: Transfer, coins: seq<Utxo>, owner: Owner)
    requires AfterSplits(m, now, gone, ss, r, owner)
    requires IsSplitOf(p, r, s, coins) && NoDup(Map(UtxoOutpoint, coins))
    requires forall u :: u in coins ==> u.outpoint in m && u.outpoint !in gone && Amount(m[u.outpoint]) == Amount(u)
    ensures CanApply(now, s) && EntriesMatch(now, s)
  {
    forall i | 0 <= i < |coins|
      ensures
        var c := s.Body().inputs[i].previousOutpoint;
        c in now && EntryAmount(s.Entries()[i]) == Amount(now[c])
    {
      assert Spends(s.Body())[i] == coins[i].outpoint;
    }
    forall c | c in Spends(s.Body()) ensures c in now {
      var i :| 0 <= i < |coins| && Spends(s.Body())[i] == c;
      assert coins[i].outpoint == c;
    }
  }

  lemma SpendThenCreate(m: Coins, gone: set<Coin>, outs: Coins, spent: set<Coin>, created: Coins)
    requires outs.Keys !! m.Keys && spent <= m.Keys
    ensures ((m - gone) + outs) - spent + created == (m - (gone + spent)) + (outs + created)
  {
  }

  lemma SplitIsFresh(m: Coins, s: Transfer, c: Coin)
    requires Unspent(m.Keys) && WellFormed(s) && forall x :: x in Spends(s.Body()) ==> x in m
    requires c.transactionId == IdOf(s.Body())
    ensures c !in m
  {
    NewIdsAreFresh(m.Keys, s, c);
  }

  lemma OutsSnoc(ss: seq<Transfer>, s: Transfer, owner: Owner)
    requires AllWellFormed(ss) && WellFormed(s)
    ensures AllWellFormed(ss + [s])
    ensures Outs(ss + [s], owner) == Outs(ss, owner) + Created(s, owner)
  {
    assert (ss + [s])[..|ss|] == ss;
  }

  lemma OneMoreMergeCoin(ss: seq<Transfer>, r: Request, s: Transfer, owner: Owner)
    requires AllWellFormed(ss) && LeavesMergeCoins(ss, r, owner) && WellFormed(s)
    requires var u := MergeCoin(r)(s);
      && Created(s, owner).Keys == {u.outpoint} && Amount(Created(s, owner)[u.outpoint]) == Amount(u)
      && u.outpoint !in Outs(ss, owner)
    ensures AllWellFormed(ss + [s]) && LeavesMergeCoins(ss + [s], r, owner)
  {
    hide Created, Outs;
    var u := MergeCoin(r)(s);
    OutsSnoc(ss, s, owner);
    assert MergeOutpoints(r, ss + [s]) == MergeOutpoints(r, ss) + [u.outpoint];
    assert u.outpoint !in MergeOutpoints(r, ss);
    NoDupAppend(MergeOutpoints(r, ss), [u.outpoint]);
  }

  lemma OneMoreSplit(m: Coins, now: Coins, gone: set<Coin>, ss: seq<Transfer>, p: Params, r: Request,
                     s: Transfer, coins: seq<Utxo>, owner: Owner)
    requires Unspent(m.Keys) && AfterSplits(m, now, gone, ss, r, owner) && owner(r.change).Some?
    requires IsSplitOf(p, r, s, coins) && CanApply(now, s)
    requires forall u :: u in coins ==> u.outpoint in m
    ensures AfterSplits(m, Applied(now, s, owner), gone + ToSet(Map(UtxoOutpoint, coins)), ss + [s], r, owner)
  {
    hide Uniform, Unspent, Created, CanApply, LeavesMergeCoins, Outs;
    var spent, u := ToSet(Map(UtxoOutpoint, coins)), MergeCoin(r)(s);
    SplitCreates(p, r, s, coins, owner);
    ApplyKeepsUnspent(now, s, owner);
    assert SpentSet(s) == spent;
    assert spent <= m.Keys;
    SplitIsFresh(m, s, u.outpoint);
    OneMoreMergeCoin(ss, r, s, owner);
    OutsSnoc(ss, s, owner);
    SpendThenCreate(m, gone, Outs(ss, owner), spent, Created(s, owner));
  }

  lemma CoinFacts(m: Coins, w: Transfer, i: nat)
    requires Spendable(m, w) && i < |w.Body().inputs|
    ensures
      var u := CoinsOf(w)[i];
      u.outpoint == Spends(w.Body())[i] && u.outpoint in m && Amount(m[u.outpoint]) == Amount(u)
  {
    assert CoinsOf(w)[i] == CoinAt(w, i);
  }

  lemma OutpointsBetween(w: Transfer, a: nat, b: nat)
    requires Aligned(w) && a <= b <= |w.Body().inputs|
    ensures Map(UtxoOutpoint, CoinsOf(w)[a..b]) == Spends(w.Body())[a..b]
  {
  }

  /** The coins of a slice: distinct, spendable, and not taken by an earlier slice. */
  lemma CoinsBetween(m: Coins, w: Transfer, a: nat, b: nat)
    requires Spendable(m, w) && a <= b <= |w.Body().inputs|
    ensures
      var coins, before := CoinsOf(w)[a..b], ToSet(Spends(w.Body())[..a]);
      && NoDup(Map(UtxoOutpoint, coins))
      && (forall u :: u in coins ==>
            u.outpoint in m && u.outpoint !in before && Amount(m[u.outpoint]) == Amount(u))
      && before + ToSet(Map(UtxoOutpoint, coins)) == ToSet(Spends(w.Body())[..b])
  {
    var spends, coins := Spends(w.Body()), CoinsOf(w)[a..b];
    hide *;
    SpendableIsDistinct(m, w);
    NoDupSlice(spends, a, b);
    OutpointsBetween(w, a, b);
    ToSetAppend(spends[..a], spends[a..b]);
    forall u | u in coins
      ensures u.outpoint in m && u.outpoint in spends[a..b] && Amount(m[u.outpoint]) == Amount(u)
    {
      CoinBetween(m, w, a, b, u);
    }
    ToSetHolds(spends[..a]);
  }

  lemma SpendableIsDistinct(m: Coins, w: Transfer)
    requires Spendable(m, w)
    ensures NoDup(Spends(w.Body())) && Aligned(w) && |Spends(w.Body())| == |w.Body().inputs| == |CoinsOf(w)|
  {
  }

  lemma CoinBetween(m: Coins, w: Transfer, a: nat, b: nat, u: Utxo)
    requires Spendable(m, w) && a <= b <= |w.Body().inputs| && u in CoinsOf(w)[a..b]
    ensures u.outpoint in m && u.outpoint in Spends(w.Body())[a..b] && Amount(m[u.outpoint]) == Amount(u)
  {
    hide CoinsOf, EntriesMatch, Spends, NoDup;
    var coins, spends := CoinsOf(w)[a..b], Spends(w.Body());
    var x :| 0 <= x < |coins| && coins[x] == u;
    CoinFacts(m, w, a + x);
    assert spends[a..b][x] == u.outpoint;
  }

  lemma ToSetAppend(s: seq<Coin>, t: seq<Coin>)
    ensures ToSet(s + t) == ToSet(s) + ToSet(t)
  {
  }

  lemma ToSetHolds(s: seq<Coin>)
    ensures forall c :: c in ToSet(s) <==> c in s
  {
  }

  lemma RunOne(now: Coins, s: Transfer, owner: Owner)
    requires CanApply(now, s) && WellFormed(s) && EntriesMatch(now, s)
    ensures GoodRun(now, [s], owner) && Replay(now, [s], owner) == Some(Applied(now, s, owner))
  {
    assert [s][1..] == [];
  }

  /** The splits all run, in order, whatever coins the wallet holds besides the original's. */
  lemma {:induction false} SplitsRun(p: Params, r: Request, w: Transfer, k: nat, i: nat, m: Coins, owner: Owner)
    requires Unspent(m.Keys) && Spendable(m, w) && owner(r.change).Some?
    requires k > 0 && StartsInside(w, k, i)
    requires Splits(p, r, w, k, i).Ok?
    ensures
      var ss := Splits(p, r, w, k, i).value;
      && GoodRun(m, ss, owner) && Replay(m, ss, owner).Some?
      && AfterSplits(m, Replay(m, ss, owner).value, ToSet(Spends(w.Body())[..Reach(w, k, i)]), ss, r, owner)
  {
    hide SplitOf, CheckFeeRate, Splits, AfterSplits, GoodRun, Replay, IsSplitOf, Spends, Unspent, StartsInside,
      ToSet, Uniform, MergeCoin, SumOf;
    SplitsAre(p, r, w, k, i);
    var ss := Splits(p, r, w, k, i).value;
    if i == 0 {
      StartOfSplits(m, w, k, ss, r, owner);
    } else {
      var before, s, coins := ss[..i - 1], ss[i - 1], SliceNo(w, k, i - 1);
      EarlierStartsInside(w, k, i);
      SplitsRun(p, r, w, k, i - 1, m, owner);
      SliceExtends(w, k, i - 1);
      SliceBounds(w, k, i - 1);
      CoinsBetween(m, w, Reach(w, k, i - 1), Reach(w, k, i));
      SplitShape(p, r, coins);
      AddSplit(m, ToSet(Spends(w.Body())[..Reach(w, k, i - 1)]), before, p, r, s, coins, owner);
      assert ss == before + [s];
    }
  }

  lemma StartOfSplits(m: Coins, w: Transfer, k: nat, ss: seq<Transfer>, r: Request, owner: Owner)
    requires Unspent(m.Keys) && ss == []
    ensures GoodRun(m, ss, owner) && Replay(m, ss, owner) == Some(m)
    ensures Reach(w, k, 0) == 0 && AfterSplits(m, m, ToSet(Spends(w.Body())[..Reach(w, k, 0)]), ss, r, owner)
  {
    assert Reach(w, k, 0) == 0;
    assert ToSet(Spends(w.Body())[..0]) == {};
    assert m - {} + map[] == m;
    assert ToSet(MergeOutpoints(r, [])) == {};
  }

  lemma AddSplit(m: Coins, gone: set<Coin>, before: seq<Transfer>, p: Params, r: Request, s: Transfer,
                 coins: seq<Utxo>, owner: Owner)
    requires Unspent(m.Keys) && owner(r.change).Some?
    requires GoodRun(m, before, owner) && Replay(m, before, owner).Some?
    requires AfterSplits(m, Replay(m, before, owner).value, gone, before, r, owner)
    requires IsSplitOf(p, r, s, coins) && NoDup(Map(UtxoOutpoint, coins))
    requires forall u :: u in coins ==> u.outpoint in m && u.outpoint !in gone && Amount(m[u.outpoint]) == Amount(u)
    ensures
      && GoodRun(m, before + [s], owner) && Replay(m, before + [s], owner).Some?
      && AfterSplits(m, Replay(m, before + [s], owner).value, gone + ToSet(Map(UtxoOutpoint, coins)),
                     before + [s], r, owner)
  {
    hide AfterSplits, EntriesMatch, CanApply;
    var now := Replay(m, before, owner).value;
    SplitCanRun(m, now, gone, before, p, r, s, coins, owner);
    RunOne(now, s, owner);
    ReplayAppend(m, before, [s], owner);
    GoodRunAppend(m, before, [s], owner);
    OneMoreSplit(m, now, gone, before, p, r, s, coins, owner);
  }
}
