/** A wallet in which dust hides money: a coin of 0.2 KAS, tried first, makes the selector refuse an
    amount that the other coin alone would pay. */
module DustExample {
  import opened Wrappers
  import opened Sequences
  import opened Model
  import opened Generate
  import opened Selection
  import opened SelectionTheorems
  import opened EndlessCompounding

  const DUST := CoinOf(0, 20_000_000)
  const MONEY := CoinOf(1, 100_000_000)
  const WALLET := [DUST, MONEY]
  const PAY := REQUEST.(amount := 60_000_000)

  /** With a fee of 0.30417 KAS for each coin, 1 KAS pays 0.6, but not together with the dust. */
  lemma DustHidesMoney(score: nat)
    ensures Select(PARAMS, PAY, WALLET, score).Err?
    ensures Payable(Candidates(PARAMS, PAY, WALLET, score), PAY.amount, 30_417_000)
    ensures PerUtxoFee(PARAMS, PAY, DUST) == Ok(30_417_000)
  {
    hide Filter, EstimateFee, Select;
    FilterAll(Eligible(PARAMS, PAY, score), WALLET);
    assert Candidates(PARAMS, PAY, WALLET, score) == WALLET;
    var alone := [DUST];
    assert SumOf(Amount, alone) == 20_000_000 + SumOf(Amount, alone[1..]) == 20_000_000;
    Estimate([DUST], 60_000_000, U64_MAX);
    Nets();
    MissesMoneyIff(PARAMS, PAY, WALLET, score, 30_417_000);
  }

  lemma Nets()
    ensures Net(WALLET, 30_417_000) == 59_166_000
    ensures Net(Filter(WorthSpending(30_417_000), WALLET), 30_417_000) == 69_583_000
  {
    FilterTwo(WorthSpending(30_417_000), DUST, MONEY);
    var best := [MONEY];
    assert Filter(WorthSpending(30_417_000), WALLET) == best;
    assert best[1..] == [] && WALLET[1..] == best;
    assert SumOf(Amount, best) == 100_000_000 + SumOf(Amount, best[1..]);
    assert SumOf(Amount, WALLET) == 20_000_000 + SumOf(Amount, WALLET[1..]);
  }
}
