/** What a coin selection promises, and exactly when it finds the money. */
module SelectionTheorems {
  import opened Arithmetic
  import opened Wrappers
  import opened Sequences
  import opened Model
  import opened Mass
  import opened Selection

  /* ----- soundness ----- */

  /** A successful selection is a duplicate-free subsequence of the eligible coins whose value is
      exactly what the recipient gets, plus the change, plus one fee for each coin. */
  lemma SelectionIsSound(p: Params, r: Request, index: seq<Utxo>, score: nat)
    requires Select(p, r, index, score).Ok?
    requires NoDup(Map(UtxoOutpoint, Available(r, index)))
    ensures
      var s, es := Select(p, r, index, score).value, Candidates(p, r, index, score);
      && s.utxos <= es
      && IsSubsequence(s.utxos, Available(r, index))
      && NoDup(Map(UtxoOutpoint, s.utxos))
      && (forall u :: u in s.utxos ==> Eligible(p, r, score)(u))
      && (s.utxos == [] ==> s.received == s.change == r.amount == 0)
      && (s.utxos != [] ==> PerUtxoFee(p, r, es[0]).Ok?)
      && (s.utxos != [] ==>
            SumOf(Amount, s.utxos) == s.received + s.change + |s.utxos| * PerUtxoFee(p, r, es[0]).value)
      && (r.isSendAll ==> s.utxos == es && s.change == 0)
      && (!r.isSendAll ==>
            && s.received == r.amount
            && (s.change == 0 || (s.change >= MIN_CHANGE_TARGET && |s.utxos| >= 2) || s.utxos == es))
  {
    var s, es := Select(p, r, index, score).value, Candidates(p, r, index, score);
    var available := Available(r, index);
    FilterIsSubsequence(Eligible(p, r, score), available);
    if es != [] {
      var fee := PerUtxoFee(p, r, es[0]).value;
      var n := ChosenPrefix(p, r, index, score);
      PrefixIsSubsequence(es, n, available);
    }
    MapSubsequence(UtxoOutpoint, s.utxos, available);
    SubsequenceNoDup(Map(UtxoOutpoint, s.utxos), Map(UtxoOutpoint, available));
  }

  /** The prefix of the candidates a successful selection settles on. */
  lemma ChosenPrefix(p: Params, r: Request, index: seq<Utxo>, score: nat) returns (n: nat)
    requires Select(p, r, index, score).Ok? && Candidates(p, r, index, score) != []
    ensures
      var es := Candidates(p, r, index, score);
      && 1 <= n <= |es| && PerUtxoFee(p, r, es[0]).Ok?
      && var fee := PerUtxoFee(p, r, es[0]).value;
      && Select(p, r, index, score) == Settle(r, es[..n], n * fee)
      && Select(p, r, index, score).value.utxos == es[..n]
      && (n == |es| || StopsAt(r, es, fee, n))
      && forall j :: 1 <= j < n ==> !StopsAt(r, es, fee, j)
  {
    hide PerUtxoFee;
    var es := Candidates(p, r, index, score);
    var fee := PerUtxoFee(p, r, es[0]).value;
    n := TakenAfter(r, es, fee, 0).value;
    TakenEnds(r, es, fee, 1);
    SelectSettles(p, r, index, score, es[..n], fee, n * fee);
  }

  /** After `k` candidates of a fixed amount: what they are worth is exactly the amount and their fees,
      or, of two or more, that and 10 KAS of change. */
  ghost predicate StopsAt(r: Request, es: seq<Utxo>, fee: nat, k: nat)
    requires k <= |es|
  {
    && !r.isSendAll
    && (SumOf(Amount, es[..k]) == r.amount + k * fee
        || (k >= 2 && SumOf(Amount, es[..k]) >= r.amount + k * fee + 1_000_000_000))
  }

  /** After `k` candidates: the amount and their fees, or for change that and 10 KAS, overflow. */
  ghost predicate OverflowsAt(r: Request, es: seq<Utxo>, fee: nat, k: nat)
    requires k <= |es|
  {
    || r.amount + k * fee > 0xFFFF_FFFF_FFFF_FFFF
    || (!r.isSendAll && SumOf(Amount, es[..k]) != r.amount + k * fee
        && r.amount + k * fee + 1_000_000_000 > 0xFFFF_FFFF_FFFF_FFFF)
  }

  /** The loop ends where it first stops, or where it runs out of candidates. */
  lemma {:induction false} TakenEnds(r: Request, es: seq<Utxo>, fee: nat, k: nat)
    requires 1 <= k <= |es| && TakenFrom(r, es, fee, k).Ok?
    ensures
      var n := TakenFrom(r, es, fee, k).value;
      && (n == |es| || StopsAt(r, es, fee, n))
      && forall j :: k <= j < n ==> !StopsAt(r, es, fee, j)
    decreases |es| - k
  {
    if !StopsAt(r, es, fee, k) && k < |es| {
      TakenEnds(r, es, fee, k + 1);
    }
  }

  /** From the `k`-th candidate on the loop ends with the `n`-th: nothing before ended it, and nothing
      up to there overflowed. */
  ghost predicate EndsWith(r: Request, es: seq<Utxo>, fee: nat, k: nat, n: nat) {
    && k <= n <= |es|
    && (n == |es| || StopsAt(r, es, fee, n))
    && (forall j :: k <= j < n ==> !StopsAt(r, es, fee, j))
    && (forall j :: k <= j <= n ==> !OverflowsAt(r, es, fee, j))
  }

  lemma {:induction false} TakesIff(r: Request, es: seq<Utxo>, fee: nat, k: nat)
    requires 1 <= k <= |es|
    ensures TakenFrom(r, es, fee, k).Ok? <==> exists n: nat :: EndsWith(r, es, fee, k, n)
    ensures TakenFrom(r, es, fee, k).Ok? ==> EndsWith(r, es, fee, k, TakenFrom(r, es, fee, k).value)
    decreases |es| - k
  {
    hide SumOf;
    if n: nat :| EndsWith(r, es, fee, k, n) {
      assert !OverflowsAt(r, es, fee, k);
      if n > k {
        assert EndsWith(r, es, fee, k + 1, n);
      }
    }
    if !OverflowsAt(r, es, fee, k) {
      if StopsAt(r, es, fee, k) || k == |es| {
        assert EndsWith(r, es, fee, k, k);
      } else {
        TakesIff(r, es, fee, k + 1);
        var rest := TakenFrom(r, es, fee, k + 1);
        if rest.Ok? {
          assert EndsWith(r, es, fee, k, rest.value);
        }
      }
    }
  }

  lemma EndsNoEarlier(r: Request, es: seq<Utxo>, fee: nat, k: nat, n: nat, m: nat)
    ensures EndsWith(r, es, fee, k, n) && m < n ==> !EndsWith(r, es, fee, k, m)
  {
    if EndsWith(r, es, fee, k, n) && k <= m < n {
      assert !StopsAt(r, es, fee, m);
    }
  }

  /** The coins taken pay: a fixed amount with a fee for each of them, or, for a send-all, those fees,
      and are worth something. */
  ghost predicate Pays(r: Request, us: seq<Utxo>, fee: nat) {
    if r.isSendAll then SumOf(Amount, us) >= |us| * fee && SumOf(Amount, us) > 0
    else SumOf(Amount, us) >= r.amount + |us| * fee
  }

  ghost predicate EndsPaid(r: Request, es: seq<Utxo>, fee: nat, n: nat) {
    EndsWith(r, es, fee, 1, n) && Pays(r, es[..n], fee)
  }

  /** The first few candidates that end the loop; the recipient gets the amount, or of a send-all
      everything but the fees, and the rest is change. */
  ghost predicate IsSelection(r: Request, es: seq<Utxo>, fee: nat, s: Selected) {
    var n := |s.utxos|;
    && n <= |es| && s.utxos == es[..n] && EndsPaid(r, es, fee, n)
    && SumOf(Amount, s.utxos) == s.received + s.change + n * fee
    && if r.isSendAll then s.change == 0 else s.received == r.amount
  }

  /** A selection succeeds exactly when the first few candidates that end the loop pay, and then it is
      those few: none fewer would have been enough, and none more are taken. */
  lemma SelectsIff(p: Params, r: Request, index: seq<Utxo>, score: nat, fee: U64)
    requires var es := Candidates(p, r, index, score); es != [] && PerUtxoFee(p, r, es[0]) == Ok(fee)
    ensures Select(p, r, index, score).Ok? <==> exists n: nat :: EndsPaid(r, Candidates(p, r, index, score), fee, n)
    ensures Select(p, r, index, score).Ok? ==>
      IsSelection(r, Candidates(p, r, index, score), fee, Select(p, r, index, score).value)
  {
    hide PerUtxoFee, Candidates, TakenFrom, StopsAt, OverflowsAt, SumOf, Settle, EndsWith, Pays;
    var es := Candidates(p, r, index, score);
    TakesIff(r, es, fee, 1);
    if TakenFrom(r, es, fee, 1).Ok? {
      var n := TakenFrom(r, es, fee, 1).value;
      SelectSettles(p, r, index, score, es[..n], fee, n * fee);
      SettlesIff(r, es[..n], fee, n);
      if Pays(r, es[..n], fee) {
        assert EndsPaid(r, es, fee, n);
      }
      if m: nat :| EndsPaid(r, es, fee, m) {
        EndsNoEarlier(r, es, fee, 1, n, m);
        EndsNoEarlier(r, es, fee, 1, m, n);
      }
    } else {
      SelectFails(p, r, index, score, TakenFrom(r, es, fee, 1).error);
    }
  }

  lemma SettlesIff(r: Request, us: seq<Utxo>, fee: nat, n: nat)
    requires |us| == n
    ensures
      var s, worth := Settle(r, us, n * fee), SumOf(Amount, us);
      && (s.Ok? <==> Pays(r, us, fee))
      && (s.Ok? ==> s.value == if r.isSendAll then Selected(us, worth - n * fee, 0)
                               else Selected(us, r.amount, worth - r.amount - n * fee))
  {
  }

  /** No coin is taken that was not needed: every shorter choice of the candidates, of one coin or more,
      missed the amount and its fees exactly, and of two or more was less than 10 KAS above it. */
  lemma NoneTakenInVain(p: Params, r: Request, index: seq<Utxo>, score: nat, fee: U64, k: nat)
    requires var es := Candidates(p, r, index, score); es != [] && PerUtxoFee(p, r, es[0]) == Ok(fee)
    requires Select(p, r, index, score).Ok? && !r.isSendAll
    requires 1 <= k < |Select(p, r, index, score).value.utxos|
    ensures
      var worth := SumOf(Amount, Select(p, r, index, score).value.utxos[..k]);
      && worth != r.amount + k * fee
      && (k >= 2 ==> worth < r.amount + k * fee + 1_000_000_000)
  {
    hide PerUtxoFee, Candidates, Select, SumOf, OverflowsAt;
    SelectsIff(p, r, index, score, fee);
    var es, us := Candidates(p, r, index, score), Select(p, r, index, score).value.utxos;
    assert !StopsAt(r, es, fee, k);
    assert us[..k] == es[..k];
  }

  /* ----- which coins are considered ----- */

  /** A candidate is a coin of the caller's choice, or else of the index, at one of the senders if any
      are named, that no transaction in the mempool pays, and, if mined, matured by the given score. */
  lemma CandidateIff(p: Params, r: Request, index: seq<Utxo>, score: nat, u: Utxo)
    ensures u in Candidates(p, r, index, score) <==>
      && (if r.preselected == [] then u in index else u in r.preselected)
      && (r.from == [] || u.address in r.from)
      && !u.entry.isUnconfirmed
      && (u.entry.isCoinbase ==> score >= u.entry.blockDaaScore + p.coinbaseMaturity)
  {
    assert u in Candidates(p, r, index, score) <==>
      u in Available(r, index) && Eligible(p, r, score)(u);
  }

  /* ----- completeness ----- */

  /** What a set of coins can still pay after being charged for each of them. */
  function Net(us: seq<Utxo>, fee: nat): int {
    SumOf(Amount, us) - |us| * fee
  }

  lemma NetPrefix(us: seq<Utxo>, fee: nat, k: nat)
    requires k < |us|
    ensures Net(us[..k + 1], fee) == Net(us[..k], fee) + Amount(us[k]) - fee
  {
    SumOfPrefix(Amount, us, k);
  }

  lemma NetAll(us: seq<Utxo>, fee: nat)
    ensures Net(us[..|us|], fee) == Net(us, fee)
  {
    assert us[..|us|] == us;
  }

  /** Coins worth less than their fee only ever lose. */
  lemma {:induction false} DustLoses(us: seq<Utxo>, fee: nat, k: nat)
    requires k <= |us| && forall i :: 0 <= i < k ==> Amount(us[i]) < fee
    ensures Net(us[..k], fee) <= 0 - k
  {
    if k > 0 {
      DustLoses(us, fee, k - 1);
      NetPrefix(us, fee, k - 1);
    }
  }

  /** Over coins in ascending order, a prefix that pays for itself never stops doing so. */
  lemma {:induction false} CoverIsKept(us: seq<Utxo>, fee: nat, k: nat, n: nat)
    requires Ascending(us) && 1 <= k <= n <= |us| && Net(us[..k], fee) >= 0
    ensures Net(us[..n], fee) >= Net(us[..k], fee)
  {
    if k < n {
      CoverIsKept(us, fee, k, n - 1);
      NetPrefix(us, fee, n - 1);
      if Amount(us[n - 1]) < fee {
        DustLoses(us, fee, k);
      }
    }
  }

  ghost predicate NoOverflow(r: Request, es: seq<Utxo>, fee: nat) {
    r.amount + |es| * fee + MIN_CHANGE_TARGET <= U64_MAX
  }

  lemma {:induction false} NoTraps(r: Request, es: seq<Utxo>, fee: nat, k: nat)
    requires 1 <= k <= |es| && NoOverflow(r, es, fee)
    ensures TakenFrom(r, es, fee, k).Ok?
    decreases |es| - k
  {
    TimesMonotone(k, |es|, fee);
    if k < |es| {
      NoTraps(r, es, fee, k + 1);
    }
  }

  /** How a request for a fixed amount ends: it goes through when the coins it took cover it. */
  lemma OutcomeIsCover(p: Params, r: Request, index: seq<Utxo>, score: nat, fee: U64) returns (n: nat)
    requires var es := Candidates(p, r, index, score);
      && !r.isSendAll && es != [] && PerUtxoFee(p, r, es[0]) == Ok(fee) && NoOverflow(r, es, fee)
    ensures var es := Candidates(p, r, index, score);
      && 1 <= n <= |es|
      && (Select(p, r, index, score).Ok? <==> Net(es[..n], fee) >= r.amount)
      && (Select(p, r, index, score).Err? ==> Select(p, r, index, score).error.InsufficientFunds?)
      && (n == |es| || Net(es[..n], fee) >= r.amount)
  {
    hide PerUtxoFee, Select, Settle, SumOf, Net, Candidates, TakenFrom, NoOverflow;
    var es := Candidates(p, r, index, score);
    NoTraps(r, es, fee, 1);
    TakenEnds(r, es, fee, 1);
    n := TakenAfter(r, es, fee, 0).value;
    SelectSettles(p, r, index, score, es[..n], fee, n * fee);
    SettlesIffCovers(r, es[..n], fee, n);
  }

  lemma SettlesIffCovers(r: Request, us: seq<Utxo>, fee: nat, n: nat)
    requires !r.isSendAll && |us| == n
    ensures
      var s := Settle(r, us, n * fee);
      && (s.Ok? <==> Net(us, fee) >= r.amount)
      && (s.Err? ==> s.error.InsufficientFunds?)
    ensures SumOf(Amount, us) >= r.amount + n * fee ==> Net(us, fee) >= r.amount
  {
    assert |us| * fee == n * fee;
  }

  /** Over the ascending index a request succeeds exactly when all eligible coins together,
      each less its fee, reach the amount, however early the loop stopped. */
  lemma SucceedsIffAllCover(p: Params, r: Request, index: seq<Utxo>, score: nat, fee: U64)
    requires var es := Candidates(p, r, index, score);
      && !r.isSendAll && Ascending(es) && NoOverflow(r, es, fee)
      && (es != [] ==> PerUtxoFee(p, r, es[0]) == Ok(fee))
    ensures Select(p, r, index, score).Ok? <==> Net(Candidates(p, r, index, score), fee) >= r.amount
    ensures Select(p, r, index, score).Err? ==> Select(p, r, index, score).error.InsufficientFunds?
  {
    var es := Candidates(p, r, index, score);
    if es != [] {
      var n := OutcomeIsCover(p, r, index, score, fee);
      NetAll(es, fee);
      if Net(es[..n], fee) >= r.amount {
        CoverIsKept(es, fee, n, |es|);
      }
    }
  }

  /** Some choice of eligible coins pays the amount and a fee for each coin chosen. */
  ghost predicate Payable(es: seq<Utxo>, amount: nat, fee: nat) {
    exists s :: IsSubsequence(s, es) && Net(s, fee) >= amount
  }

  function WorthSpending(fee: nat): Utxo -> bool {
    (u: Utxo) => u.entry.amount >= fee
  }

  /** No choice does better than every coin worth at least its fee. */
  lemma {:induction false} BestChoice(s: seq<Utxo>, es: seq<Utxo>, fee: nat)
    requires IsSubsequence(s, es)
    ensures Net(s, fee) <= Net(Filter(WorthSpending(fee), es), fee)
    ensures Net(Filter(WorthSpending(fee), es), fee) >= 0
  {
    var best := Filter(WorthSpending(fee), es);
    if es != [] {
      var rest := Filter(WorthSpending(fee), es[1..]);
      assert WorthSpending(fee)(es[0]) ==> best == [es[0]] + rest && best[1..] == rest;
      assert !WorthSpending(fee)(es[0]) ==> best == rest;
      NetCons(best, fee);
      NetCons(s, fee);
      if s != [] && s[0] == es[0] && IsSubsequence(s[1..], es[1..]) {
        BestChoice(s[1..], es[1..], fee);
      } else {
        BestChoice(s, es[1..], fee);
      }
    }
  }

  lemma NetCons(us: seq<Utxo>, fee: nat)
    ensures us != [] ==> Net(us, fee) == Net(us[1..], fee) + Amount(us[0]) - fee
  {
  }

  lemma PayableIffBestCovers(es: seq<Utxo>, amount: nat, fee: nat)
    ensures Payable(es, amount, fee) <==> Net(Filter(WorthSpending(fee), es), fee) >= amount
  {
    FilterIsSubsequence(WorthSpending(fee), es);
    if Payable(es, amount, fee) {
      var s :| IsSubsequence(s, es) && Net(s, fee) >= amount;
      BestChoice(s, es, fee);
    }
  }

  /** Without dust among the eligible coins the selector is complete, in any order of the coins:
      it fails only when no choice of coins could pay. */
  lemma CompleteWithoutDust(p: Params, r: Request, index: seq<Utxo>, score: nat, fee: U64)
    requires var es := Candidates(p, r, index, score);
      && !r.isSendAll && NoOverflow(r, es, fee)
      && (es != [] ==> PerUtxoFee(p, r, es[0]) == Ok(fee))
      && forall u :: u in es ==> Amount(u) >= fee
    ensures Select(p, r, index, score).Ok? <==> Payable(Candidates(p, r, index, score), r.amount, fee)
  {
    var es := Candidates(p, r, index, score);
    PayableIffBestCovers(es, r.amount, fee);
    FilterAll(WorthSpending(fee), es);
    if es != [] {
      var n := OutcomeIsCover(p, r, index, score, fee);
      NetAll(es, fee);
      NetGrows(es, fee, n, |es|);
    }
  }

  lemma {:induction false} NetGrows(us: seq<Utxo>, fee: nat, k: nat, n: nat)
    requires k <= n <= |us| && forall u :: u in us ==> Amount(u) >= fee
    ensures Net(us[..k], fee) <= Net(us[..n], fee)
  {
    if k < n {
      NetGrows(us, fee, k, n - 1);
      NetPrefix(us, fee, n - 1);
    }
  }

  /** With dust the selector misses money exactly when the dust's losses sink it: the coins worth
      spending cover the amount, all eligible coins together do not. */
  lemma MissesMoneyIff(p: Params, r: Request, index: seq<Utxo>, score: nat, fee: U64)
    requires var es := Candidates(p, r, index, score);
      && !r.isSendAll && Ascending(es) && NoOverflow(r, es, fee)
      && (es != [] ==> PerUtxoFee(p, r, es[0]) == Ok(fee))
    ensures
      var es := Candidates(p, r, index, score);
      (Select(p, r, index, score).Err? && Payable(es, r.amount, fee))
        <==> Net(es, fee) < r.amount <= Net(Filter(WorthSpending(fee), es), fee)
  {
    SucceedsIffAllCover(p, r, index, score, fee);
    PayableIffBestCovers(Candidates(p, r, index, score), r.amount, fee);
  }

  /** The index is kept in ascending order, and filtering keeps the order. */
  lemma {:induction false} FilterAscending(f: Utxo -> bool, us: seq<Utxo>)
    requires Ascending(us)
    ensures Ascending(Filter(f, us))
  {
    if us != [] {
      FilterAscending(f, us[1..]);
      assert forall u :: u in Filter(f, us[1..]) ==> u in us[1..] && Amount(us[0]) <= Amount(u);
    }
  }
}
