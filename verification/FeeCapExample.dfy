/** A request that pays more than its cap although no estimate reaches it. */
module FeeCapExample {
  import opened Sequences
  import opened Wrappers
  import opened Model
  import opened Selection
  import opened FeeSufficiency
  import opened EndlessCompounding

  const CAPPED := REQUEST.(maxFee := 50_000_000)

  /** The estimate is 0.30417 KAS, well below the cap, and four coins are taken: the transaction pays
      1.21668 KAS in fees under a cap of half a KAS. */
  lemma PaysMoreThanItsCap(score: nat)
    ensures PerUtxoFee(PARAMS, CAPPED, Piece(0)) == Ok(30_417_000)
    ensures Select(PARAMS, CAPPED, INDEX, score) == Ok(Selected(SELECTED, 119_600_000, 0))
    ensures
      var w := Original(PARAMS, CAPPED, Selected(SELECTED, 119_600_000, 0));
      w.Ok? && Fee(w.value) == 121_668_000 > CAPPED.maxFee
  {
    hide Select, PerUtxoFee, Original, Fee, FourInputs, Candidates;
    SelectsFour(SpareOf(60_317_000), 50_000_000, score);
    OriginalIsFour(50_000_000);
    IndexIsDistinct();
    CapIsPerCoin(PARAMS, CAPPED, INDEX, score);
  }

  lemma IndexIsDistinct()
    ensures NoDup(Map(UtxoOutpoint, Available(CAPPED, INDEX)))
  {
    var outpoints := Map(UtxoOutpoint, INDEX);
    forall i | 0 <= i < 6 ensures outpoints[i].transactionId == NodeTx(i) {
    }
  }
}
