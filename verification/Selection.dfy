/** Choosing the coins that pay for a request (daemon/src/transaction_generator.rs, select_utxos). */
module Selection {
  import opened Wrappers
  import opened Sequences
  import opened Model
  import opened Mass
  import opened Generate

  /** A request once its addresses and outpoints are resolved. `preselected` lists the caller's
      own coins in whatever order their hash map yields them; empty means "choose for me". */
  datatype Request = Request(
    to: Address, amount: U64, isSendAll: bool, payload: seq<Byte>, from: seq<WalletAddress>,
    preselected: seq<Utxo>, change: Address, changeWallet: WalletAddress, rate: real, maxFee: U64)

  predicate Unspendable(maturity: nat, u: Utxo, score: nat) {
    u.entry.isUnconfirmed || (u.entry.isCoinbase && u.entry.blockDaaScore + maturity > score)
  }

  function Eligible(p: Params, r: Request, score: nat): Utxo -> bool {
    (u: Utxo) => (r.from == [] || u.address in r.from) && !Unspendable(p.coinbaseMaturity, u, score)
  }

  function Available(r: Request, index: seq<Utxo>): seq<Utxo> {
    if r.preselected != [] then r.preselected else index
  }

  function Candidates(p: Params, r: Request, index: seq<Utxo>, score: nat): seq<Utxo> {
    Filter(Eligible(p, r, score), Available(r, index))
  }

  /** Estimated once, on the first eligible coin alone, then charged for every coin taken. */
  function PerUtxoFee(p: Params, r: Request, first: Utxo): Result<U64> {
    EstimateFee(p, [first], r.rate, r.maxFee, if r.isSendAll then first.entry.amount else r.amount, r.payload)
  }

  /* ----- when the loop ends ----- */

  predicate Traps(r: Request, total: nat, spend: nat) {
    spend > U64_MAX || (!r.isSendAll && total != spend && spend + MIN_CHANGE_TARGET > U64_MAX)
  }

  predicate Stops(r: Request, total: nat, spend: nat, count: nat) {
    !r.isSendAll && (total == spend || (total >= spend + MIN_CHANGE_TARGET && count > 1))
  }

  /** How many candidates are taken, given that the first `k - 1` did not end the loop. */
  function TakenFrom(r: Request, es: seq<Utxo>, fee: nat, k: nat): (n: Result<nat>)
    requires 1 <= k <= |es|
    ensures n.Ok? ==> k <= n.value <= |es|
    decreases |es| - k
  {
    var total, spend := SumOf(Amount, es[..k]), r.amount + k * fee;
    if Traps(r, total, spend) then Err(Overflow)
    else if Stops(r, total, spend, k) || k == |es| then Ok(k)
    else TakenFrom(r, es, fee, k + 1)
  }

  /** How many are taken in the end, once `n` were taken without ending the loop. */
  function TakenAfter(r: Request, es: seq<Utxo>, fee: nat, n: nat): Result<nat>
    requires n <= |es|
  {
    if n < |es| then TakenFrom(r, es, fee, n + 1) else Ok(n)
  }

  datatype Selected = Selected(utxos: seq<Utxo>, received: nat, change: nat)

  function Settle(r: Request, utxos: seq<Utxo>, fees: nat): Result<Selected> {
    var total := SumOf(Amount, utxos);
    if r.isSendAll then
      if total < fees then Err(Overflow)
      else if total == 0 then Err(InsufficientFunds(0, 0))
      else Ok(Selected(utxos, total - fees, 0))
    else if total < r.amount + fees then Err(InsufficientFunds(r.amount + fees, total))
    else Ok(Selected(utxos, r.amount, total - (r.amount + fees)))
  }

  function Select(p: Params, r: Request, index: seq<Utxo>, score: nat): Result<Selected> {
    var es := Candidates(p, r, index, score);
    if es == [] then Settle(r, [], 0)
    else
      var fee :- PerUtxoFee(p, r, es[0]);
      var n :- TakenAfter(r, es, fee, 0);
      Settle(r, es[..n], n * fee)
  }

  /* ----- the loop ----- */

  datatype Progress = Progress(selected: seq<Utxo>, total: nat, fees: nat, feePerUtxo: Option<U64>)

  /** After `i` coins, none of which ended the loop. */
  ghost predicate Invariant(p: Params, r: Request, index: seq<Utxo>, score: nat, i: nat, st: Progress) {
    var es := Candidates(p, r, index, score);
    && i <= |Available(r, index)|
    && st.selected == Filter(Eligible(p, r, score), Available(r, index)[..i]) <= es
    && st.total == SumOf(Amount, st.selected)
    && match st.feePerUtxo
       case None => st.selected == [] && st.fees == 0
       case Some(fee) => st.selected != [] && PerUtxoFee(p, r, es[0]) == Ok(fee) && Charged(r, es, fee, st)
  }

  ghost predicate Charged(r: Request, es: seq<Utxo>, fee: U64, st: Progress) {
    && st.selected <= es && st.total == SumOf(Amount, st.selected) && st.fees == |st.selected| * fee
    && TakenAfter(r, es, fee, 0) == TakenAfter(r, es, fee, |st.selected|)
  }

  /** Take one candidate and charge its fee; says whether to go on. */
  method Charge(r: Request, ghost es: seq<Utxo>, fee: U64, st: Progress, utxo: Utxo)
    returns (next: Progress, goOn: Result<bool>)
    requires Charged(r, es, fee, st) && st.selected + [utxo] <= es
    ensures next.selected == st.selected + [utxo] && next.feePerUtxo == Some(fee)
    ensures next.total == SumOf(Amount, next.selected) && next.fees == |next.selected| * fee
    ensures goOn.Err? ==> TakenAfter(r, es, fee, 0) == Err(goOn.error)
    ensures goOn == Ok(false) ==> TakenAfter(r, es, fee, 0) == Ok(|next.selected|)
    ensures goOn == Ok(true) ==> Charged(r, es, fee, next)
  {
    ghost var n := |st.selected| + 1;
    assert es[..n] == st.selected + [utxo];
    SumOfSnoc(Amount, st.selected, utxo);
    assert |st.selected| * fee + fee == n * fee;
    next := Progress(st.selected + [utxo], st.total + utxo.entry.amount, st.fees + fee, Some(fee));
    var spend: nat := r.amount + next.fees;
    goOn := if Traps(r, next.total, spend) then Err(Overflow)
            else Ok(!Stops(r, next.total, spend, |next.selected|));
  }

  /** The closure the source calls `iteration`. */
  method Iteration(p: Params, r: Request, index: seq<Utxo>, score: nat, i: nat, st: Progress)
    returns (next: Progress, goOn: Result<bool>)
    requires Invariant(p, r, index, score, i, st) && i < |Available(r, index)|
    ensures goOn.Err? ==> Select(p, r, index, score) == Err(goOn.error)
    ensures goOn == Ok(false) ==> Select(p, r, index, score) == Settle(r, next.selected, next.fees)
    ensures goOn == Ok(true) ==> Invariant(p, r, index, score, i + 1, next)
  {
    FilterPrefix(Eligible(p, r, score), Available(r, index), i);
    FilterGrows(Eligible(p, r, score), Available(r, index), i + 1);
    var utxo := Available(r, index)[i];
    if !(r.from == [] || utxo.address in r.from) || Unspendable(p.coinbaseMaturity, utxo, score) {
      return st, Ok(true);
    }
    ghost var es := Candidates(p, r, index, score);
    var fee: U64;
    if st.feePerUtxo == None {
      var estimate := PerUtxoFee(p, r, utxo);
      if estimate.Err? {
        SelectFails(p, r, index, score, estimate.error);
        return st, Err(estimate.error);
      }
      fee := estimate.value;
    } else {
      fee := st.feePerUtxo.value;
    }
    next, goOn := Charge(r, es, fee, st, utxo);
    if goOn.Err? {
      SelectFails(p, r, index, score, goOn.error);
    } else if !goOn.value {
      SelectSettles(p, r, index, score, next.selected, fee, next.fees);
    }
  }

  method SelectUtxos(p: Params, r: Request, index: seq<Utxo>, score: nat) returns (result: Result<Selected>)
    ensures result == Select(p, r, index, score)
  {
    var st := Progress([], 0, 0, None);
    for i := 0 to |Available(r, index)|
      invariant Invariant(p, r, index, score, i, st)
    {
      var goOn;
      st, goOn := Iteration(p, r, index, score, i, st);
      if goOn.Err? {
        return Err(goOn.error);
      }
      if !goOn.value {
        return Settle(r, st.selected, st.fees);
      }
    }
    LoopDone(p, r, index, score, st);
    result := Settle(r, st.selected, st.fees);
  }

  lemma LoopDone(p: Params, r: Request, index: seq<Utxo>, score: nat, st: Progress)
    requires Invariant(p, r, index, score, |Available(r, index)|, st)
    ensures Select(p, r, index, score) == Settle(r, st.selected, st.fees)
  {
    var available := Available(r, index);
    assert available[..|available|] == available;
    if st.feePerUtxo.Some? {
      SelectSettles(p, r, index, score, st.selected, st.feePerUtxo.value, st.fees);
    }
  }

  lemma SelectFails(p: Params, r: Request, index: seq<Utxo>, score: nat, error: WalletError)
    requires var es := Candidates(p, r, index, score);
      && es != []
      && var fee := PerUtxoFee(p, r, es[0]);
         Err(error) == if fee.Err? then Err(fee.error) else TakenAfter(r, es, fee.value, 0)
    ensures Select(p, r, index, score) == Err(error)
  {
  }

  lemma SelectSettles(p: Params, r: Request, index: seq<Utxo>, score: nat, selected: seq<Utxo>, fee: U64, fees: nat)
    requires var es := Candidates(p, r, index, score);
      && es != [] && PerUtxoFee(p, r, es[0]) == Ok(fee) && selected <= es
      && TakenAfter(r, es, fee, 0) == Ok(|selected|)
    requires fees == |selected| * fee
    ensures Select(p, r, index, score) == Settle(r, selected, fees)
  {
    assert Candidates(p, r, index, score)[..|selected|] == selected;
  }

  /* ----- the transaction a selection makes ----- */

  function OriginalPayments(r: Request, s: Selected): seq<Payment> {
    [Payment(r.to, s.received)] + if s.change > 0 then [Payment(r.change, s.change)] else []
  }

  function Original(p: Params, r: Request, s: Selected): Result<Transfer> {
    Generated(p, OriginalPayments(r, s), s.utxos, r.payload)
  }
}
