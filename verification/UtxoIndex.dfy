/** The two forms in which the wallet holds its coins, as values: a list sorted by amount and a map
    by outpoint (daemon/src/utxo_manager.rs). What each change to them keeps. */
module UtxoIndex {
  import opened Sequences
  import opened Model
  import opened Ledger

  /** The list is sorted, names no outpoint twice and holds exactly the map's coins. */
  ghost predicate Agrees(sorted: seq<Utxo>, m: Coins) {
    && Ascending(sorted) && NoDup(Outpoints(sorted))
    && (forall u :: u in sorted ==> u.outpoint in m && m[u.outpoint] == u)
    && (forall c :: c in m ==> m[c].outpoint == c && m[c] in sorted)
  }

  /** The part of that which no node response can break: nothing in the map is missing from the
      sorted list. It is what keeps removal from failing. */
  ghost predicate Lists(sorted: seq<Utxo>, m: Coins) {
    Ascending(sorted) && forall c :: c in m ==> c in Outpoints(sorted)
  }

  lemma AgreeingLists(sorted: seq<Utxo>, m: Coins)
    requires Agrees(sorted, m)
    ensures Lists(sorted, m)
  {
    forall c | c in m ensures c in Outpoints(sorted) {
      var i :| 0 <= i < |sorted| && sorted[i] == m[c];
      assert Outpoints(sorted)[i] == c;
    }
  }

  /* ----- inserting ----- */

  /** Where a binary search for `amount` may say it is or belongs: any equal element will do. */
  ghost predicate IsPosition(sorted: seq<Utxo>, amount: nat, k: nat) {
    && k <= |sorted|
    && (|| (k < |sorted| && Amount(sorted[k]) == amount)
        || ((forall i :: 0 <= i < k ==> Amount(sorted[i]) < amount)
          && (forall i :: k <= i < |sorted| ==> Amount(sorted[i]) > amount)))
  }

  function InsertAt(sorted: seq<Utxo>, u: Utxo, k: nat): seq<Utxo>
    requires k <= |sorted|
  {
    sorted[..k] + [u] + sorted[k..]
  }

  lemma InsertKeepsOrder(sorted: seq<Utxo>, u: Utxo, k: nat)
    requires k <= |sorted| && Ascending(sorted)
    requires forall i :: 0 <= i < k ==> Amount(sorted[i]) <= Amount(u)
    requires forall i :: k <= i < |sorted| ==> Amount(u) <= Amount(sorted[i])
    ensures Ascending(InsertAt(sorted, u, k))
    ensures forall x :: x in InsertAt(sorted, u, k) <==> x == u || x in sorted
  {
    assert sorted == sorted[..k] + sorted[k..];
  }

  lemma InsertOutpoints(sorted: seq<Utxo>, u: Utxo, k: nat)
    requires k <= |sorted|
    ensures NoDup(Outpoints(InsertAt(sorted, u, k))) <==> NoDup(Outpoints(sorted)) && u.outpoint !in Outpoints(sorted)
    ensures forall c :: c in Outpoints(InsertAt(sorted, u, k)) <==> c == u.outpoint || c in Outpoints(sorted)
  {
    var a, b := Outpoints(sorted)[..k], Outpoints(sorted)[k..];
    assert Outpoints(sorted) == a + b;
    assert Outpoints(InsertAt(sorted, u, k)) == a + ([u.outpoint] + b);
    NoDupAppend(a, b);
    NoDupAppend(a, [u.outpoint] + b);
    NoDupAppend([u.outpoint], b);
  }

  lemma PositionKeepsOrder(sorted: seq<Utxo>, u: Utxo, k: nat)
    requires Ascending(sorted) && IsPosition(sorted, Amount(u), k)
    ensures Ascending(InsertAt(sorted, u, k))
    ensures forall x :: x in InsertAt(sorted, u, k) <==> x == u || x in sorted
  {
    InsertKeepsOrder(sorted, u, k);
  }

  lemma OutpointsListed(sorted: seq<Utxo>, m: Coins)
    requires Agrees(sorted, m)
    ensures forall c :: c in Outpoints(sorted) <==> c in m
  {
    AgreeingLists(sorted, m);
  }

  /** Inserting a coin keeps the two forms together exactly when its outpoint is new. */
  lemma InsertAgrees(sorted: seq<Utxo>, m: Coins, u: Utxo, k: nat)
    requires Agrees(sorted, m) && k <= |sorted|
    requires Ascending(InsertAt(sorted, u, k)) && forall x :: x in InsertAt(sorted, u, k) <==> x == u || x in sorted
    ensures Agrees(InsertAt(sorted, u, k), m[u.outpoint := u]) <==> u.outpoint !in m
  {
    hide InsertAt, Ascending, NoDup, Outpoints;
    OutpointsListed(sorted, m);
    InsertOutpoints(sorted, u, k);
    var more, n := InsertAt(sorted, u, k), m[u.outpoint := u];
    if u.outpoint !in m {
      forall x | x in more ensures x.outpoint in n && n[x.outpoint] == x {
        assert x == u || x in sorted;
      }
      forall c | c in n ensures n[c].outpoint == c && n[c] in more {
        assert c == u.outpoint || c in m;
      }
    }
  }

  lemma InsertLists(sorted: seq<Utxo>, m: Coins, u: Utxo, k: nat)
    requires Lists(sorted, m) && k <= |sorted| && Ascending(InsertAt(sorted, u, k))
    ensures Lists(InsertAt(sorted, u, k), m[u.outpoint := u])
  {
    InsertOutpoints(sorted, u, k);
  }

  /* ----- removing ----- */

  function RemoveAt(sorted: seq<Utxo>, k: nat): seq<Utxo>
    requires k < |sorted|
  {
    sorted[..k] + sorted[k + 1..]
  }

  lemma RemoveOutpoints(sorted: seq<Utxo>, k: nat)
    requires k < |sorted|
    ensures InsertAt(RemoveAt(sorted, k), sorted[k], k) == sorted
    ensures NoDup(Outpoints(sorted)) <==>
      NoDup(Outpoints(RemoveAt(sorted, k))) && sorted[k].outpoint !in Outpoints(RemoveAt(sorted, k))
    ensures forall c :: c in Outpoints(sorted) <==> c == sorted[k].outpoint || c in Outpoints(RemoveAt(sorted, k))
  {
    assert InsertAt(RemoveAt(sorted, k), sorted[k], k) == sorted;
    InsertOutpoints(RemoveAt(sorted, k), sorted[k], k);
  }

  lemma RemoveKeepsOrder(sorted: seq<Utxo>, k: nat)
    requires k < |sorted| && Ascending(sorted)
    ensures Ascending(RemoveAt(sorted, k))
  {
    var left := RemoveAt(sorted, k);
    forall i, j | 0 <= i < j < |left| ensures Amount(left[i]) <= Amount(left[j]) {
      var x, y := if i < k then i else i + 1, if j < k then j else j + 1;
      assert left[i] == sorted[x] && left[j] == sorted[y];
    }
  }

  lemma RemoveLists(sorted: seq<Utxo>, m: Coins, k: nat)
    requires Lists(sorted, m) && k < |sorted|
    ensures Lists(RemoveAt(sorted, k), m - {sorted[k].outpoint})
  {
    RemoveKeepsOrder(sorted, k);
    RemoveOutpoints(sorted, k);
  }

  lemma RemoveMembers(sorted: seq<Utxo>, k: nat)
    requires k < |sorted|
    ensures forall x :: x in sorted <==> x == sorted[k] || x in RemoveAt(sorted, k)
  {
    assert sorted == sorted[..k] + ([sorted[k]] + sorted[k + 1..]);
  }

  lemma RemoveAgrees(sorted: seq<Utxo>, m: Coins, k: nat)
    requires Agrees(sorted, m) && k < |sorted|
    ensures Agrees(RemoveAt(sorted, k), m - {sorted[k].outpoint})
  {
    RemoveKeepsOrder(sorted, k);
    RemoveOutpoints(sorted, k);
    RemoveMembers(sorted, k);
    var left, n := RemoveAt(sorted, k), m - {sorted[k].outpoint};
    hide NoDup, Ascending, InsertAt, RemoveAt, Outpoints;
    forall u | u in left ensures u.outpoint in n && n[u.outpoint] == u {
      OutpointListed(left, u);
      assert u in sorted;
    }
  }

  /* ----- rebuilding ----- */

  /** Before the first element that is larger. */
  function Place(sorted: seq<Utxo>, amount: nat): (k: nat)
    ensures k <= |sorted|
    ensures Ascending(sorted) ==>
      && (forall i :: 0 <= i < k ==> Amount(sorted[i]) <= amount)
      && (forall i :: k <= i < |sorted| ==> amount < Amount(sorted[i]))
  {
    if sorted == [] || Amount(sorted[|sorted| - 1]) <= amount then |sorted|
    else Place(sorted[..|sorted| - 1], amount)
  }

  /** A stable sort by amount. */
  function SortedByAmount(us: seq<Utxo>): (r: seq<Utxo>)
    ensures Ascending(r)
    ensures forall x :: x in r <==> x in us
  {
    if us == [] then []
    else
      var before, u := SortedByAmount(us[..|us| - 1]), us[|us| - 1];
      var k := Place(before, Amount(u));
      InsertKeepsOrder(before, u, k);
      InsertAt(before, u, k)
  }

  function Costs(amount: nat): Utxo -> bool {
    (u: Utxo) => Amount(u) == amount
  }

  lemma FilterInsert(f: Utxo -> bool, sorted: seq<Utxo>, u: Utxo, k: nat)
    requires k <= |sorted|
    ensures Filter(f, InsertAt(sorted, u, k))
      == Filter(f, sorted[..k]) + (if f(u) then [u] else []) + Filter(f, sorted[k..])
    ensures Filter(f, sorted) == Filter(f, sorted[..k]) + Filter(f, sorted[k..])
  {
    FilterAppend(f, sorted[..k] + [u], sorted[k..]);
    FilterAppend(f, sorted[..k], [u]);
    assert [u][1..] == [];
    assert Filter(f, [u]) == if f(u) then [u] else [];
    assert sorted == sorted[..k] + sorted[k..];
    FilterAppend(f, sorted[..k], sorted[k..]);
  }

  /** Equal amounts stay in the order they came in. */
  lemma {:induction false} SortIsStable(us: seq<Utxo>, amount: nat)
    ensures Filter(Costs(amount), SortedByAmount(us)) == Filter(Costs(amount), us)
  {
    if us != [] {
      var init, u := us[..|us| - 1], us[|us| - 1];
      SortIsStable(init, amount);
      assert us == InsertAt(init, u, |init|);
      hide Filter, InsertAt, SortedByAmount, Ascending;
      InsertionIsStable(init, SortedByAmount(init), u, amount);
      RebuiltIs(us);
    }
  }

  lemma InsertionIsStable(init: seq<Utxo>, sorted: seq<Utxo>, u: Utxo, amount: nat)
    requires Ascending(sorted) && Filter(Costs(amount), sorted) == Filter(Costs(amount), init)
    ensures Filter(Costs(amount), InsertAt(sorted, u, Place(sorted, Amount(u))))
      == Filter(Costs(amount), InsertAt(init, u, |init|))
  {
    hide Filter, InsertAt, Ascending;
    var f, k := Costs(amount), Place(sorted, Amount(u));
    FilterInsert(f, sorted, u, k);
    FilterInsert(f, init, u, |init|);
    FilterOfNone(f, init[|init|..]);
    assert init[..|init|] == init;
    if Amount(u) == amount {
      NoneAfter(sorted, amount);
      assert Filter(f, sorted[..k]) == Filter(f, init);
    }
  }

  lemma NoneAfter(sorted: seq<Utxo>, amount: nat)
    requires Ascending(sorted)
    ensures Filter(Costs(amount), sorted[Place(sorted, amount)..]) == []
  {
    FilterOfNone(Costs(amount), sorted[Place(sorted, amount)..]);
  }

  lemma FilterOfNone(f: Utxo -> bool, us: seq<Utxo>)
    requires forall u :: u in us ==> !f(u)
    ensures Filter(f, us) == []
  {
    assert forall u :: u !in Filter(f, us);
  }

  /** The map after inserting the coins one by one into an empty one: the last of equals wins. */
  function ByOutpoint(us: seq<Utxo>): (m: Coins)
    ensures m.Keys == set c | c in Outpoints(us)
  {
    if us == [] then map[]
    else
      var u := us[|us| - 1];
      assert Outpoints(us) == Outpoints(us[..|us| - 1]) + [u.outpoint];
      ByOutpoint(us[..|us| - 1])[u.outpoint := u]
  }

  lemma {:induction false} ByOutpointHolds(us: seq<Utxo>)
    ensures forall c :: c in ByOutpoint(us) ==> ByOutpoint(us)[c] in us
  {
    if us != [] {
      ByOutpointHolds(us[..|us| - 1]);
    }
  }

  /** The two forms, rebuilt from a list of coins, agree exactly when no outpoint is listed twice;
      even when one is, nothing in the map is missing from the list. */
  lemma {:induction false} RebuiltAgrees(us: seq<Utxo>)
    ensures Lists(SortedByAmount(us), ByOutpoint(us))
    ensures NoDup(Outpoints(SortedByAmount(us))) <==> NoDup(Outpoints(us))
    ensures Agrees(SortedByAmount(us), ByOutpoint(us)) <==> NoDup(Outpoints(us))
  {
    if us != [] {
      hide Agrees, Lists, NoDup, Ascending;
      var before, u := us[..|us| - 1], us[|us| - 1];
      var sorted, m := SortedByAmount(before), ByOutpoint(before);
      var k := Place(sorted, Amount(u));
      RebuiltAgrees(before);
      RebuiltIs(us);
      InsertKeepsOrder(sorted, u, k);
      InsertOutpoints(sorted, u, k);
      InsertLists(sorted, m, u, k);
      assert Outpoints(us) == Outpoints(before) + [u.outpoint];
      NoDupLast(Outpoints(before), u.outpoint);
      if NoDup(Outpoints(before)) {
        InsertAgrees(sorted, m, u, k);
      } else {
        AgreesHasNoDup(SortedByAmount(us), ByOutpoint(us));
      }
    } else {
      assert SortedByAmount(us) == [] && ByOutpoint(us) == map[];
    }
  }

  lemma RebuiltIs(us: seq<Utxo>)
    requires us != []
    ensures
      var before, u := us[..|us| - 1], us[|us| - 1];
      && SortedByAmount(us) == InsertAt(SortedByAmount(before), u, Place(SortedByAmount(before), Amount(u)))
      && ByOutpoint(us) == ByOutpoint(before)[u.outpoint := u]
  {
  }

  lemma AgreesHasNoDup(sorted: seq<Utxo>, m: Coins)
    ensures Agrees(sorted, m) ==> NoDup(Outpoints(sorted))
  {
  }

  lemma NoDupLast(cs: seq<Coin>, c: Coin)
    ensures NoDup(cs + [c]) <==> NoDup(cs) && c !in cs
  {
    NoDupAppend(cs, [c]);
  }

  /* ----- what the list is worth ----- */

  /** The sorted list and the map are worth the same. */
  lemma {:induction false} WorthOfList(sorted: seq<Utxo>, m: Coins)
    requires Agrees(sorted, m)
    ensures SumOf(Amount, sorted) == Worth(m)
    decreases |sorted|
  {
    if sorted == [] {
      assert m == map[];
    } else {
      var u := sorted[0];
      RemoveAgrees(sorted, m, 0);
      assert RemoveAt(sorted, 0) == sorted[1..];
      WorthOfList(sorted[1..], m - {u.outpoint});
      WorthWithout(m, u.outpoint);
    }
  }
}
