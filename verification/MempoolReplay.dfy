/** Putting the wallet's own unaccepted transactions back onto a fresh set of coins
    (daemon/src/utxo_manager.rs, apply_mempool_transactions_after_update). */
module MempoolReplay {
  import opened Wrappers
  import opened Sequences
  import opened Model
  import opened Ledger

  /** What every transaction in the mempool list satisfies, having been applied once. */
  ghost predicate Replayable(w: Transfer) {
    NoDup(Spends(w.Body())) && |w.Body().outputs| <= |w.addressByOutputIndex|
  }

  ghost predicate AllReplayable(ws: seq<Transfer>) {
    forall w :: w in ws ==> Replayable(w)
  }

  /** Every coin the transaction spends is there. */
  ghost predicate Present(m: Coins, w: Transfer) {
    forall c :: c in Spends(w.Body()) ==> c in m
  }

  /** The list after going through it once, and the coins. */
  ghost function Kept(m: Coins, ws: seq<Transfer>, owner: Owner): (r: (seq<Transfer>, Coins))
    requires AllReplayable(ws)
    decreases ws
  {
    if ws == [] then ([], m)
    else if !Present(m, ws[0]) then Kept(m, ws[1..], owner)
    else
      assert Replayable(ws[0]);
      var (kept, left) := Kept(Applied(m, ws[0], owner), ws[1..], owner);
      ([ws[0]] + kept, left)
  }

  lemma {:induction false} KeptIsSubsequence(m: Coins, ws: seq<Transfer>, owner: Owner)
    requires AllReplayable(ws)
    ensures IsSubsequence(Kept(m, ws, owner).0, ws)
    ensures AllReplayable(Kept(m, ws, owner).0)
    decreases ws
  {
    hide NoDup, Applied;
    if ws != [] {
      if Present(m, ws[0]) {
        assert Replayable(ws[0]);
        KeptIsSubsequence(Applied(m, ws[0], owner), ws[1..], owner);
        assert Kept(m, ws, owner).0[1..] == Kept(Applied(m, ws[0], owner), ws[1..], owner).0;
      } else {
        KeptIsSubsequence(m, ws[1..], owner);
      }
    }
  }

  /** The kept transactions replay, one after another, and lead to the coins that are left: no
      removal fails. */
  lemma {:induction false} KeptReplays(m: Coins, ws: seq<Transfer>, owner: Owner)
    requires AllReplayable(ws)
    ensures Replay(m, Kept(m, ws, owner).0, owner) == Some(Kept(m, ws, owner).1)
    decreases ws
  {
    hide Applied;
    if ws != [] {
      if Present(m, ws[0]) {
        assert Replayable(ws[0]);
        KeptReplays(Applied(m, ws[0], owner), ws[1..], owner);
        assert Kept(m, ws, owner).0[1..] == Kept(Applied(m, ws[0], owner), ws[1..], owner).0;
      } else {
        KeptReplays(m, ws[1..], owner);
      }
    }
  }

  lemma {:induction false} KeptAppend(m: Coins, a: seq<Transfer>, b: seq<Transfer>, owner: Owner)
    requires AllReplayable(a) && AllReplayable(b)
    ensures AllReplayable(a + b)
    ensures Kept(m, a + b, owner) ==
      var (first, middle) := Kept(m, a, owner);
      var (second, left) := Kept(middle, b, owner);
      (first + second, left)
    decreases a
  {
    hide NoDup, Applied;
    if a == [] {
      assert a + b == b;
      assert [] + Kept(m, b, owner).0 == Kept(m, b, owner).0;
    } else {
      assert (a + b)[1..] == a[1..] + b;
      if Present(m, a[0]) {
        assert Replayable(a[0]);
        KeptAppend(Applied(m, a[0], owner), a[1..], b, owner);
        var (first, middle) := Kept(Applied(m, a[0], owner), a[1..], owner);
        assert [a[0]] + (first + Kept(middle, b, owner).0) == [a[0]] + first + Kept(middle, b, owner).0;
      } else {
        KeptAppend(m, a[1..], b, owner);
      }
    }
  }

  lemma KeptOne(m: Coins, w: Transfer, owner: Owner)
    requires Replayable(w)
    ensures AllReplayable([w])
    ensures Kept(m, [w], owner) == if Present(m, w) then ([w], Applied(m, w, owner)) else ([], m)
  {
    var ws := [w];
    assert ws[0] == w && ws[1..] == [];
    assert Replayable(ws[0]);
    hide Applied, NoDup;
    if Present(m, w) {
      var (kept, left) := Kept(Applied(m, w, owner), ws[1..], owner);
      assert Kept(m, ws, owner) == ([w] + kept, left);
      assert [w] + kept == ws;
    } else {
      assert Kept(m, ws, owner) == Kept(m, ws[1..], owner);
    }
  }

  /** The choice is greedy: transaction `i` is kept exactly when the coins it spends are all there
      in the state the transactions kept before it lead to. */
  lemma KeptIsGreedy(m: Coins, ws: seq<Transfer>, owner: Owner, i: nat)
    requires AllReplayable(ws) && i < |ws|
    ensures AllReplayable(ws[..i]) && AllReplayable(ws[..i + 1]) && Replayable(ws[i])
    ensures
      var (before, now) := Kept(m, ws[..i], owner);
      && Replay(m, before, owner) == Some(now)
      && Kept(m, ws[..i + 1], owner) ==
           (if Present(now, ws[i]) then (before + [ws[i]], Applied(now, ws[i], owner)) else (before, now))
      && before <= Kept(m, ws, owner).0
  {
    var w := ws[i];
    var (before, now) := Kept(m, ws[..i], owner);
    assert ws[..i + 1] == ws[..i] + [w];
    assert ws == ws[..i] + ws[i..];
    hide NoDup, Applied, Replay, Kept;
    KeptReplays(m, ws[..i], owner);
    KeptAppend(m, ws[..i], [w], owner);
    KeptAppend(m, ws[..i], ws[i..], owner);
    KeptOne(now, w, owner);
    assert before + [] == before;
  }

  /** Going through the kept list again over the same coins changes nothing. */
  lemma {:induction false} KeptTwice(m: Coins, ws: seq<Transfer>, owner: Owner)
    requires AllReplayable(ws)
    ensures AllReplayable(Kept(m, ws, owner).0)
    ensures Kept(m, Kept(m, ws, owner).0, owner) == Kept(m, ws, owner)
    decreases ws
  {
    hide Applied;
    KeptIsSubsequence(m, ws, owner);
    if ws != [] {
      if Present(m, ws[0]) {
        assert Replayable(ws[0]);
        KeptTwice(Applied(m, ws[0], owner), ws[1..], owner);
        assert Kept(m, ws, owner).0[1..] == Kept(Applied(m, ws[0], owner), ws[1..], owner).0;
      } else {
        KeptTwice(m, ws[1..], owner);
      }
    }
  }

  /** Over coins of which none descends from another, the coins left are such again. */
  lemma KeptUnspent(m: Coins, ws: seq<Transfer>, owner: Owner)
    requires AllReplayable(ws) && Unspent(m.Keys) && forall w :: w in ws ==> WellFormed(w)
    ensures Unspent(Kept(m, ws, owner).1.Keys)
  {
    KeptIsSubsequence(m, ws, owner);
    KeptReplays(m, ws, owner);
    SubsequenceMembers(Kept(m, ws, owner).0, ws);
    ReplayKeepsUnspent(m, Kept(m, ws, owner).0, owner);
  }
}
