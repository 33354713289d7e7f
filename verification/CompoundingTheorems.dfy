/** What a whole batch of compounding transactions does: it runs over the wallet's coins, its net
    effect is that of the original transaction, and it conserves value. */
module CompoundingTheorems {
  import opened Arithmetic
  import opened Wrappers
  import opened Sequences
  import opened Model
  import opened Mass
  import opened Selection
  import opened Compounding
  import opened CompoundingFacts
  import opened Ledger
  import opened SplitRun

  function Flatten(ess: seq<seq<Utxo>>): seq<Utxo> {
    if ess == [] then [] else ess[0] + Flatten(ess[1..])
  }

  /** All the coins a run adds, over all its levels. */
  function AllExtras(fuel: nat, c: Context, scores: nat -> nat, level: nat, w: Transfer): seq<Utxo>
    requires Aligned(w)
  {
    Flatten(ExtrasPerLevel(fuel, c, scores, level, w))
  }

  /** Added coins are the wallet's, not among `w`'s inputs, and no two are the same. */
  ghost predicate ExtrasHeld(m: Coins, w: Transfer, xs: seq<Utxo>) {
    && NoDup(Outpoints(xs))
    && forall u :: u in xs ==> u.outpoint in m && m[u.outpoint] == u && u.outpoint !in Spends(w.Body())
  }

  /* ----- unfolding one level ----- */

  lemma LightBatch(fuel: nat, c: Context, scores: nat -> nat, level: nat, w: Transfer)
    requires Aligned(w) && StepOf(c, scores(level), w) == Ok(Light)
    ensures Compound(fuel, c, scores, level, w) == Ok([w])
    ensures AllExtras(fuel, c, scores, level, w) == []
  {
    hide StepOf;
  }

  /** A heavy level's batch: its splits, then the batch of its merge. */
  lemma HeavyBatch(fuel: nat, c: Context, scores: nat -> nat, level: nat, w: Transfer) returns (k: nat)
    requires Aligned(w) && StepOf(c, scores(level), w).Ok? && StepOf(c, scores(level), w).value.Heavy?
    requires Compound(fuel, c, scores, level, w).Ok?
    ensures
      var step := StepOf(c, scores(level), w).value;
      var merge := step.merged.tx;
      && fuel > 0 && Aligned(merge)
      && IsHeavyStep(c, scores(level), w, step.splits, step.merged, k)
      && Compound(fuel - 1, c, scores, level + 1, merge).Ok?
      && Compound(fuel, c, scores, level, w)
           == Ok(step.splits + Compound(fuel - 1, c, scores, level + 1, merge).value)
      && AllExtras(fuel, c, scores, level, w)
           == step.merged.extras + AllExtras(fuel - 1, c, scores, level + 1, merge)
  {
    k := HeavyStep(c, scores(level), w);
    hide StepOf;
    var step := StepOf(c, scores(level), w).value;
    var below := ExtrasPerLevel(fuel - 1, c, scores, level + 1, step.merged.tx);
    assert ([step.merged.extras] + below)[1..] == below;
  }

  /* ----- the batch runs ----- */

  lemma MergeIsSpendable(c: Context, merged: Merged, splits: seq<Transfer>, w: Transfer, m: Coins, now: Coins,
                         owner: Owner)
    requires AfterSplits(m, now, ToSet(Spends(w.Body())), splits, c.r, owner)
    requires IsMergeOf(c, merged, splits, w) && ExtrasHeld(m, w, merged.extras)
    ensures Spendable(now, merged.tx)
    ensures ToSet(Spends(merged.tx.Body())) == Outs(splits, owner).Keys + ToSet(Outpoints(merged.extras))
  {
    hide Outs, Uniform, Unspent, WellFormed, SumOf, EntriesMatch;
    var mine := Map(MergeCoin(c.r), splits);
    var coins := mine + merged.extras;
    assert Outpoints(coins) == MergeOutpoints(c.r, splits) + Outpoints(merged.extras);
    forall o | o in MergeOutpoints(c.r, splits) ensures o !in Outpoints(merged.extras) {
      assert o in ToSet(MergeOutpoints(c.r, splits));
    }
    NoDupAppend(MergeOutpoints(c.r, splits), Outpoints(merged.extras));
    forall i | 0 <= i < |coins|
      ensures coins[i].outpoint in now && Amount(now[coins[i].outpoint]) == Amount(coins[i])
    {
      if i < |splits| {
        assert coins[i] == MergeCoin(c.r)(splits[i]);
      } else {
        assert coins[i] in merged.extras;
      }
    }
    EntriesFollowCoins(now, merged.tx, coins);
  }

  lemma EntriesFollowCoins(now: Coins, t: Transfer, coins: seq<Utxo>)
    requires Aligned(t) && Spends(t.Body()) == Outpoints(coins) && |t.Entries()| == |coins|
    requires forall i :: 0 <= i < |coins| ==> EntryAmount(t.Entries()[i]) == Amount(coins[i])
    requires forall i :: 0 <= i < |coins| ==>
      coins[i].outpoint in now && Amount(now[coins[i].outpoint]) == Amount(coins[i])
    ensures EntriesMatch(now, t)
  {
    forall i | 0 <= i < |t.Entries()|
      ensures t.Body().inputs[i].previousOutpoint in now
           && EntryAmount(t.Entries()[i]) == Amount(now[t.Body().inputs[i].previousOutpoint])
    {
      assert Spends(t.Body())[i] == coins[i].outpoint;
    }
  }

  lemma ExtrasBelowHeld(c: Context, merged: Merged, splits: seq<Transfer>, w: Transfer, m: Coins, now: Coins,
                        below: seq<Utxo>, owner: Owner)
    requires AfterSplits(m, now, ToSet(Spends(w.Body())), splits, c.r, owner)
    requires IsMergeOf(c, merged, splits, w) && ExtrasHeld(m, w, merged.extras + below)
    ensures ExtrasHeld(m, w, merged.extras) && ExtrasHeld(now, merged.tx, below)
  {
    hide Outs, Uniform, Unspent, WellFormed, Aligned, SumOf, EntryAmount;
    assert Outpoints(merged.extras + below) == Outpoints(merged.extras) + Outpoints(below);
    NoDupAppend(Outpoints(merged.extras), Outpoints(below));
    var coins := Map(MergeCoin(c.r), splits) + merged.extras;
    assert Outpoints(coins) == MergeOutpoints(c.r, splits) + Outpoints(merged.extras);
    forall u | u in merged.extras ensures u.outpoint in m && m[u.outpoint] == u && u.outpoint !in Spends(w.Body()) {
      assert u in merged.extras + below;
    }
    forall u | u in below ensures u.outpoint in now && now[u.outpoint] == u && u.outpoint !in Spends(merged.tx.Body()) {
      assert u in merged.extras + below;
      assert u.outpoint in Outpoints(below);
      assert u.outpoint !in ToSet(MergeOutpoints(c.r, splits));
    }
  }

  lemma NetOfLevel(m: Coins, spent: set<Coin>, outs: Coins, extras: set<Coin>, below: set<Coin>, created: Coins)
    requires outs.Keys !! m.Keys
    ensures ((m - spent) + outs) - ((outs.Keys + extras) + below) + created == m - (spent + (extras + below)) + created
  {
  }

  /** What a batch leaves of `m`: the inputs and the added coins are gone, the last transaction's
      own outputs are there, and nothing else changed. */
  ghost function NetEffect(m: Coins, w: Transfer, xs: seq<Utxo>, last: Transfer, owner: Owner): Coins
    requires WellFormed(last)
  {
    m - (ToSet(Spends(w.Body())) + ToSet(Outpoints(xs))) + Created(last, owner)
  }

  ghost predicate BatchOutcome(m: Coins, w: Transfer, xs: seq<Utxo>, batch: seq<Transfer>, owner: Owner) {
    && batch != [] && AllWellFormed(batch)
    && GoodRun(m, batch, owner)
    && WellFormed(batch[|batch| - 1])
    && Replay(m, batch, owner) == Some(NetEffect(m, w, xs, batch[|batch| - 1], owner))
  }

  /** Provided no coin is added twice, the batch runs: each transaction spends only coins the
      wallet holds when its turn comes, every original input and every intermediate output is
      spent exactly once, and only the last transaction's outputs remain. */
  lemma {:induction false} BatchRuns(fuel: nat, c: Context, scores: nat -> nat, level: nat, w: Transfer, m: Coins,
                                     owner: Owner)
    requires Spendable(m, w) && WellFormed(w)
    requires Unspent(m.Keys) && owner(c.r.change).Some?
    requires Compound(fuel, c, scores, level, w).Ok?
    requires ExtrasHeld(m, w, AllExtras(fuel, c, scores, level, w))
    ensures BatchOutcome(m, w, AllExtras(fuel, c, scores, level, w), Compound(fuel, c, scores, level, w).value, owner)
    decreases fuel
  {
    hide StepOf, Compound, AllExtras, Spendable, WellFormed, ExtrasHeld, BatchOutcome, IsMergeOf, AfterSplits, Unspent,
      GoodRun, Replay, Splits, SplitCounts, Merge, CheckFeeRate, MergeAmounts, MoreUtxos, AllWellFormed, Outs, ToSet,
      Outpoints, CeilDiv;
    SpendableIsAligned(m, w);
    var step := StepResult(fuel, c, scores, level, w);
    if step.Light? {
      LightBatch(fuel, c, scores, level, w);
      LightRuns(m, w, owner);
    } else {
      var k := HeavyBatch(fuel, c, scores, level, w);
      var merge, below := step.merged.tx, AllExtras(fuel - 1, c, scores, level + 1, step.merged.tx);
      SplitsRunFully(c, scores(level), w, step, k, m, owner);
      var now := Replay(m, step.splits, owner).value;
      var _, _ := MergeShape(c, scores(level), step.splits, w);
      ExtrasBelowHeld(c, step.merged, step.splits, w, m, now, below, owner);
      MergeIsSpendable(c, step.merged, step.splits, w, m, now, owner);
      MergeIsWellFormed(c, step.merged, step.splits, w);
      AfterSplitsUnspent(m, now, w, step.splits, c.r, owner);
      BatchRuns(fuel - 1, c, scores, level + 1, merge, now, owner);
      LevelOutcome(c, step, w, m, below, Compound(fuel - 1, c, scores, level + 1, merge).value, owner);
    }
  }

  lemma SpendableIsAligned(m: Coins, w: Transfer)
    requires Spendable(m, w)
    ensures Aligned(w)
  {
  }

  lemma StepResult(fuel: nat, c: Context, scores: nat -> nat, level: nat, w: Transfer) returns (step: Step)
    requires Aligned(w) && Compound(fuel, c, scores, level, w).Ok?
    ensures StepOf(c, scores(level), w) == Ok(step)
  {
    hide StepOf;
    step := StepOf(c, scores(level), w).value;
  }

  lemma LightRuns(m: Coins, w: Transfer, owner: Owner)
    requires Spendable(m, w) && WellFormed(w)
    ensures BatchOutcome(m, w, [], [w], owner)
  {
    hide NoDup;
    assert CanApply(m, w) by {
      forall x | x in Spends(w.Body()) ensures x in m {
        var i :| 0 <= i < |w.Body().inputs| && Spends(w.Body())[i] == x;
        assert w.Body().inputs[i].previousOutpoint in m;
      }
    }
    RunOne(m, w, owner);
    assert ToSet(Outpoints([])) == {};
    assert SpentSet(w) == ToSet(Spends(w.Body())) + ToSet(Outpoints([]));
    assert [w][|[w]| - 1] == w;
  }

  lemma SplitsRunFully(c: Context, score: nat, w: Transfer, step: Step, k: nat, m: Coins, owner: Owner)
    requires Unspent(m.Keys) && Spendable(m, w) && owner(c.r.change).Some?
    requires step.Heavy? && IsHeavyStep(c, score, w, step.splits, step.merged, k)
    ensures GoodRun(m, step.splits, owner) && Replay(m, step.splits, owner).Some?
    ensures AfterSplits(m, Replay(m, step.splits, owner).value, ToSet(Spends(w.Body())), step.splits, c.r, owner)
  {
    hide AfterSplits, GoodRun, Replay, Unspent, Spendable, Splits, SplitCounts, Merge, CheckFeeRate;
    SplitsRun(c.p, c.r, w, k, |step.splits|, m, owner);
    assert Reach(w, k, |step.splits|) == |w.Body().inputs|;
    assert Spends(w.Body())[..|w.Body().inputs|] == Spends(w.Body());
  }

  lemma MergeIsWellFormed(c: Context, merged: Merged, splits: seq<Transfer>, w: Transfer)
    requires IsMergeOf(c, merged, splits, w) && splits != []
    ensures WellFormed(merged.tx)
  {
    hide Uniform;
    assert |Spends(merged.tx.Body())| > 0;
  }

  lemma AfterSplitsUnspent(m: Coins, now: Coins, w: Transfer, splits: seq<Transfer>, r: Request, owner: Owner)
    requires AfterSplits(m, now, ToSet(Spends(w.Body())), splits, r, owner)
    ensures Unspent(now.Keys) && AllWellFormed(splits)
    ensures now == (m - ToSet(Spends(w.Body()))) + Outs(splits, owner) && Outs(splits, owner).Keys !! m.Keys
  {
  }

  lemma LevelOutcome(c: Context, step: Step, w: Transfer, m: Coins, below: seq<Utxo>, rest: seq<Transfer>, owner: Owner)
    requires step.Heavy? && GoodRun(m, step.splits, owner) && Replay(m, step.splits, owner).Some?
    requires
      var now := Replay(m, step.splits, owner).value;
      && AfterSplits(m, now, ToSet(Spends(w.Body())), step.splits, c.r, owner)
      && BatchOutcome(now, step.merged.tx, below, rest, owner)
      && ToSet(Spends(step.merged.tx.Body())) == Outs(step.splits, owner).Keys + ToSet(Outpoints(step.merged.extras))
    ensures BatchOutcome(m, w, step.merged.extras + below, step.splits + rest, owner)
  {
    hide AfterSplits, WellFormed, GoodRun, NetEffect;
    var now, batch := Replay(m, step.splits, owner).value, step.splits + rest;
    AfterSplitsUnspent(m, now, w, step.splits, c.r, owner);
    GoodRunAppend(m, step.splits, rest, owner);
    ReplayAppend(m, step.splits, rest, owner);
    assert batch[|batch| - 1] == rest[|rest| - 1];
    NetAddsUp(now, step, w, m, below, rest[|rest| - 1], owner);
  }

  lemma NetAddsUp(now: Coins, step: Step, w: Transfer, m: Coins, below: seq<Utxo>, last: Transfer, owner: Owner)
    requires step.Heavy? && AllWellFormed(step.splits) && WellFormed(last)
    requires now == (m - ToSet(Spends(w.Body()))) + Outs(step.splits, owner) && Outs(step.splits, owner).Keys !! m.Keys
    requires ToSet(Spends(step.merged.tx.Body()))
      == Outs(step.splits, owner).Keys + ToSet(Outpoints(step.merged.extras))
    ensures NetEffect(now, step.merged.tx, below, last, owner)
      == NetEffect(m, w, step.merged.extras + below, last, owner)
  {
    hide Outs, AllWellFormed, Created, Spends;
    var extras := step.merged.extras;
    assert Outpoints(extras + below) == Outpoints(extras) + Outpoints(below);
    assert ToSet(Outpoints(extras + below)) == ToSet(Outpoints(extras)) + ToSet(Outpoints(below));
    NetOfLevel(m, ToSet(Spends(w.Body())), Outs(step.splits, owner), ToSet(Outpoints(extras)),
               ToSet(Outpoints(below)), Created(last, owner));
  }
}
