/** Handing signed transactions to the node, one after another (daemon/src/service/common.rs). */
module Submit {
  import opened Wrappers
  import opened Model
  import opened Ledger
  import opened SplitRun
  import opened UtxoIndex
  import opened MempoolReplay
  import opened UtxoManager

  /** What the node answers to the `i`-th submission: the id it gives the transaction, or a refusal. */
  type Replies = nat -> Option<TxId>

  predicate IsNative(subnetworkId: seq<Byte>) {
    forall b :: b in subnetworkId ==> b == 0
  }

  /** A daemon configured for the native subnetwork lets any transaction through. */
  predicate LaneMatches(lane: seq<Byte>, w: Transfer) {
    IsNative(lane) || w.Body().subnetworkId == lane
  }

  /** Why the `k`-th transaction would not go through, given the coins when its turn comes. */
  ghost function Obstacle(m: Coins, lane: seq<Byte>, replies: Replies, ws: seq<Transfer>, k: nat): Option<WalletError>
    requires k < |ws|
  {
    if ws[k].transaction.Partially? then Some(NotFullySigned)
    else if !LaneMatches(lane, ws[k]) then Some(LaneMismatch)
    else if replies(k).None? then Some(Rejected)
    else if !CanApply(m, ws[k]) then Some(MissingElement)
    else None
  }

  /** The first `k` transactions went through and the wallet's coins followed them. */
  ghost predicate WentThrough(m: Coins, lane: seq<Byte>, replies: Replies, ws: seq<Transfer>, owner: Owner, k: nat,
                              now: Coins)
    requires k <= |ws|
  {
    && Replay(m, ws[..k], owner) == Some(now)
    && forall i :: 0 <= i < k ==>
         Replay(m, ws[..i], owner).Some? && Obstacle(Replay(m, ws[..i], owner).value, lane, replies, ws, i).None?
  }

  lemma NothingSubmitted(m: Coins, lane: seq<Byte>, replies: Replies, ws: seq<Transfer>, owner: Owner)
    ensures WentThrough(m, lane, replies, ws, owner, 0, m)
  {
    assert ws[..0] == [];
  }

  lemma OneMoreWent(m: Coins, lane: seq<Byte>, replies: Replies, ws: seq<Transfer>, owner: Owner, k: nat, now: Coins)
    requires k < |ws| && WentThrough(m, lane, replies, ws, owner, k, now) && Obstacle(now, lane, replies, ws, k).None?
    ensures WentThrough(m, lane, replies, ws, owner, k + 1, Applied(now, ws[k], owner))
  {
    hide Applied, CanApply, Obstacle;
    assert ws[..k + 1] == ws[..k] + [ws[k]];
    assert CanApply(now, ws[k]) by { CanApplyWhenClear(now, lane, replies, ws, k); }
    ReplayAppend(m, ws[..k], [ws[k]], owner);
    ReplayOne(now, ws[k], owner);
  }

  lemma CanApplyWhenClear(m: Coins, lane: seq<Byte>, replies: Replies, ws: seq<Transfer>, k: nat)
    requires k < |ws| && Obstacle(m, lane, replies, ws, k).None?
    ensures CanApply(m, ws[k])
  {
  }

  lemma ReplayOne(m: Coins, w: Transfer, owner: Owner)
    requires CanApply(m, w)
    ensures Replay(m, [w], owner) == Some(Applied(m, w, owner))
  {
    hide Applied;
    assert [w][1..] == [];
    assert Replay(Applied(m, w, owner), [], owner) == Some(Applied(m, w, owner));
  }

  /** Coins of which none descends from another, and transactions that each spend something. */
  ghost predicate Clean(m: Coins, ws: seq<Transfer>) {
    Unspent(m.Keys) && AllWellFormed(ws)
  }

  lemma StaysClean(m: Coins, ws: seq<Transfer>, w: Transfer, owner: Owner)
    requires Clean(m, ws) && w in ws && CanApply(m, w)
    ensures Clean(Applied(m, w, owner), ws) && m.Keys !! Created(w, owner).Keys
  {
    hide Applied, Created;
    ApplyKeepsUnspent(m, w, owner);
  }

  /** How far a submission went, and what it answered: all the ids, or the obstacle it stopped at. */
  ghost predicate Stopped(m: Coins, lane: seq<Byte>, replies: Replies, ws: seq<Transfer>, owner: Owner, accepted: nat,
                          r: Result<seq<TxId>>) {
    && accepted <= |ws| && Replay(m, ws[..accepted], owner).Some?
    && var now := Replay(m, ws[..accepted], owner).value;
    && WentThrough(m, lane, replies, ws, owner, accepted, now)
    && match r
       case Ok(ids) => accepted == |ws| == |ids| && forall i :: 0 <= i < |ws| ==> replies(i) == Some(ids[i])
       case Err(e) => accepted < |ws| && Obstacle(now, lane, replies, ws, accepted) == Some(e)
  }

  /** Stops at the first transaction that is not fully signed, is for another lane, is refused by
      the node or (a trap) spends a coin the wallet does not hold. Whatever happens, the wallet's
      coins and its mempool list have followed exactly the transactions that went through, and the
      index stays valid. */
  method SubmitTransactions(u: UtxoManager, lane: seq<Byte>, signed: seq<Transfer>, replies: Replies)
    returns (r: Result<seq<TxId>>, ghost accepted: nat)
    requires u.Usable()
    modifies u
    ensures Stopped(old(u.utxosByOutpoint), lane, replies, signed, u.Owner(), accepted, r)
    ensures r != Err(MissingElement) ==>
      && u.Usable() && Some(u.utxosByOutpoint) == Replay(old(u.utxosByOutpoint), signed[..accepted], u.Owner())
      && u.mempoolTransactions == old(u.mempoolTransactions) + signed[..accepted]
      && (old(u.Valid()) && Clean(old(u.utxosByOutpoint), signed) ==> u.Valid() && Clean(u.utxosByOutpoint, signed))
  {
    hide UtxoManager.Indexed, AllReplayable, Agrees, Replay, Applied, Created, CanApply, WentThrough, Clean,
      LaneMatches;
    ghost var m, owner, sound := u.utxosByOutpoint, u.Owner(), u.Valid() && Clean(u.utxosByOutpoint, signed);
    var ids: seq<TxId> := [];
    NothingSubmitted(m, lane, replies, signed, owner);
    accepted := 0;
    for k := 0 to |signed|
      invariant accepted == k == |ids| && forall i :: 0 <= i < k ==> replies(i) == Some(ids[i])
      invariant u.Usable() && WentThrough(m, lane, replies, signed, owner, k, u.utxosByOutpoint)
      invariant u.mempoolTransactions == old(u.mempoolTransactions) + signed[..k]
      invariant sound ==> u.Valid() && Clean(u.utxosByOutpoint, signed)
    {
      ghost var now := u.utxosByOutpoint;
      Replayed(m, lane, replies, signed, owner, k, now);
      if signed[k].transaction.Partially? {
        return Err(NotFullySigned), k;
      }
      if !LaneMatches(lane, signed[k]) {
        return Err(LaneMismatch), k;
      }
      var reply := replies(k);
      if reply.None? {
        return Err(Rejected), k;
      }
      ids := ids + [reply.value];
      var applied := u.AddMempoolTransaction(signed[k]);
      if applied.Fail? {
        return Err(MissingElement), k;
      }
      OneMoreWent(m, lane, replies, signed, owner, k, now);
      if sound {
        StaysClean(now, signed, signed[k], owner);
      }
      assert signed[..k + 1] == signed[..k] + [signed[k]];
      accepted := k + 1;
    }
    Replayed(m, lane, replies, signed, owner, |signed|, u.utxosByOutpoint);
    r := Ok(ids);
  }

  lemma Replayed(m: Coins, lane: seq<Byte>, replies: Replies, ws: seq<Transfer>, owner: Owner, k: nat, now: Coins)
    requires k <= |ws| && WentThrough(m, lane, replies, ws, owner, k, now)
    ensures Replay(m, ws[..k], owner) == Some(now)
  {
  }

  /** What was accepted was fully signed, for the daemon's own subnetwork (any one if that is the native
      one, all of whose 20 bytes are zero), and taken by the node; and what stopped a submission was not. */
  lemma StoppedIs(m: Coins, lane: seq<Byte>, replies: Replies, ws: seq<Transfer>, owner: Owner, accepted: nat,
                  r: Result<seq<TxId>>)
    requires Stopped(m, lane, replies, ws, owner, accepted, r)
    ensures forall i :: 0 <= i < accepted ==>
      && ws[i].transaction.Fully? && replies(i).Some?
      && (ws[i].Body().subnetworkId == lane || forall b :: b in lane ==> b == 0)
    ensures r.Err? ==>
      var w := ws[accepted];
      var foreign := w.Body().subnetworkId != lane && exists b :: b in lane && b != 0;
      && (r.error == NotFullySigned <==> w.transaction.Partially?)
      && (r.error == LaneMismatch <==> w.transaction.Fully? && foreign)
      && (r.error == Rejected <==> w.transaction.Fully? && !foreign && replies(accepted).None?)
      && (r.error == MissingElement <==> w.transaction.Fully? && !foreign && replies(accepted).Some?)
      && r.error in {NotFullySigned, LaneMismatch, Rejected, MissingElement}
  {
    hide CanApply, Replay;
    forall i | 0 <= i < accepted
      ensures ws[i].transaction.Fully? && replies(i).Some?
      ensures ws[i].Body().subnetworkId == lane || forall b :: b in lane ==> b == 0
    {
      assert Obstacle(Replay(m, ws[..i], owner).value, lane, replies, ws, i).None?;
    }
  }

  /** A batch that runs over the wallet's coins never traps on its way to the node. */
  lemma GoodRunNeverTraps(m: Coins, lane: seq<Byte>, replies: Replies, ws: seq<Transfer>, owner: Owner, k: nat)
    requires GoodRun(m, ws, owner) && k < |ws|
    ensures Replay(m, ws[..k], owner).Some?
    ensures Obstacle(Replay(m, ws[..k], owner).value, lane, replies, ws, k) != Some(MissingElement)
  {
    GoodRunReplays(m, ws, owner);
    ReplayPrefix(m, ws, k, owner);
  }

  lemma {:induction false} GoodRunPrefix(m: Coins, ws: seq<Transfer>, owner: Owner, k: nat)
    requires GoodRun(m, ws, owner) && k <= |ws|
    ensures GoodRun(m, ws[..k], owner)
    decreases ws
  {
    hide Applied, CanApply, WellFormed, EntriesMatch;
    if k > 0 {
      assert ws[..k][1..] == ws[1..][..k - 1] && ws[..k][0] == ws[0];
      IsAligned(m, ws[0]);
      GoodRunPrefix(Applied(m, ws[0], owner), ws[1..], owner, k - 1);
    }
  }

  /** At every accepted prefix of such a batch the wallet is poorer by exactly that prefix's fees
      and what it pays to others. */
  lemma PrefixConserves(m: Coins, ws: seq<Transfer>, owner: Owner, k: nat)
    requires Unspent(m.Keys) && GoodRun(m, ws, owner) && AllWellFormed(ws) && k <= |ws|
    ensures forall w :: w in ws[..k] ==> WellFormed(w)
    ensures Replay(m, ws[..k], owner).Some?
    ensures Worth(m) == Worth(Replay(m, ws[..k], owner).value) + TotalFees(ws[..k]) + TotalExternal(ws[..k], owner)
  {
    GoodRunPrefix(m, ws, owner, k);
    RunConserves(m, ws[..k], owner);
  }
}
