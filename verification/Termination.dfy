/** When the compounding recursion ends, and that it need not. */
module Termination {
  import opened Wrappers
  import opened Model
  import opened Mass
  import opened Compounding
  import opened CompoundingFacts
  import opened CompoundingTheorems
  import opened BatchTheorems

  /** The recursion ends within `fuel` levels. */
  ghost predicate Halts(fuel: nat, c: Context, scores: nat -> nat, level: nat, w: Transfer)
    requires Aligned(w)
    decreases fuel
  {
    match StepOf(c, scores(level), w)
    case Err(_) => true
    case Ok(Light) => true
    case Ok(Heavy(_, merged)) => fuel > 0 && Halts(fuel - 1, c, scores, level + 1, merged.tx)
  }

  /** The result of a recursion that ends does not depend on the fuel, and one that does not end
      yields no result for that fuel. */
  lemma {:induction false} HaltingFixesResult(fuel: nat, more: nat, c: Context, scores: nat -> nat, level: nat,
                                              w: Transfer)
    requires Aligned(w)
    ensures Halts(fuel, c, scores, level, w) ==>
      && Halts(fuel + more, c, scores, level, w)
      && Compound(fuel + more, c, scores, level, w) == Compound(fuel, c, scores, level, w)
    ensures !Halts(fuel, c, scores, level, w) ==> Compound(fuel, c, scores, level, w) == Err(OutOfFuel)
    decreases fuel
  {
    hide StepOf;
    var step := StepOf(c, scores(level), w);
    if step.Ok? && step.value.Heavy? && fuel > 0 {
      HaltingFixesResult(fuel - 1, more, c, scores, level + 1, step.value.merged.tx);
    }
  }

  /* ----- without added coins ----- */

  /** Each level without added coins burns value: its splits pay at least one sompi each. */
  lemma LevelBurnsValue(c: Context, score: nat, w: Transfer)
    requires Aligned(w) && Uniform(c.p, w.Body()) && c.p.Valid()
    requires StepOf(c, score, w).Ok? && StepOf(c, score, w).value.Heavy?
    ensures
      var step := StepOf(c, score, w).value;
      && Aligned(step.merged.tx) && Uniform(c.p, step.merged.tx.Body())
      && |step.merged.tx.Body().inputs| == |step.splits| + |step.merged.extras|
      && (step.merged.extras == [] ==> TotalIn(step.merged.tx) < TotalIn(w))
      && (step.merged.extras != [] ==> !c.r.isSendAll && c.r.preselected == [])
  {
    var k := HeavyStep(c, score, w);
    hide StepOf, SplitCounts, Splits, CheckFeeRate, Merge, GoodSplit, MergeAmounts;
    var step := StepOf(c, score, w).value;
    LevelConserves(c, score, w, step, k);
    MergeFeeIsKept(c, score, step.splits, w);
    var _, _ := MergeShape(c, score, step.splits, w);
    assert |Spends(step.merged.tx.Body())| == |step.splits| + |step.merged.extras|;
  }

  /** The transaction `n` levels down, if the recursion gets there. */
  function Down(n: nat, c: Context, scores: nat -> nat, level: nat, w: Transfer): (t: Option<Transfer>)
    requires Aligned(w)
    ensures t.Some? ==> Aligned(t.value)
    decreases n
  {
    if n == 0 then Some(w)
    else
      match StepOf(c, scores(level), w)
      case Err(_) => None
      case Ok(Light) => None
      case Ok(Heavy(_, merged)) => Down(n - 1, c, scores, level + 1, merged.tx)
  }

  /** The level `n` below is reached and its merge adds coins. */
  ghost predicate AddsAt(n: nat, c: Context, scores: nat -> nat, level: nat, w: Transfer)
    requires Aligned(w)
  {
    var t := Down(n, c, scores, level, w);
    && t.Some?
    && var step := StepOf(c, scores(level + n), t.value);
       step.Ok? && step.value.Heavy? && step.value.merged.extras != []
  }

  /** No level from here on adds a coin. */
  ghost predicate NoExtras(c: Context, scores: nat -> nat, level: nat, w: Transfer)
    requires Aligned(w)
  {
    forall n: nat :: !AddsAt(n, c, scores, level, w)
  }

  lemma NoExtrasBelow(c: Context, scores: nat -> nat, level: nat, w: Transfer)
    requires Aligned(w) && NoExtras(c, scores, level, w)
    requires StepOf(c, scores(level), w).Ok? && StepOf(c, scores(level), w).value.Heavy?
    ensures
      var merged := StepOf(c, scores(level), w).value.merged;
      merged.extras == [] && NoExtras(c, scores, level + 1, merged.tx)
  {
    hide StepOf;
    var merged, next := StepOf(c, scores(level), w).value.merged, level + 1;
    assert !AddsAt(0, c, scores, level, w);
    forall n: nat ensures !AddsAt(n, c, scores, next, merged.tx) {
      assert !AddsAt(n + 1, c, scores, level, w);
    }
  }

  lemma ExtrasUnfold(fuel: nat, c: Context, scores: nat -> nat, level: nat, w: Transfer)
    requires Aligned(w) && StepOf(c, scores(level), w).Ok? && StepOf(c, scores(level), w).value.Heavy?
    ensures
      var merged := StepOf(c, scores(level), w).value.merged;
      AllExtras(fuel + 1, c, scores, level, w) == merged.extras + AllExtras(fuel, c, scores, level + 1, merged.tx)
  {
    hide StepOf;
    var merged := StepOf(c, scores(level), w).value.merged;
    var below := ExtrasPerLevel(fuel, c, scores, level + 1, merged.tx);
    assert ([merged.extras] + below)[1..] == below;
  }

  lemma {:induction false} NoneAdded(fuel: nat, c: Context, scores: nat -> nat, level: nat, w: Transfer)
    requires Aligned(w) && NoExtras(c, scores, level, w)
    ensures AllExtras(fuel, c, scores, level, w) == []
    decreases fuel
  {
    hide StepOf, NoExtras;
    var step := StepOf(c, scores(level), w);
    if step.Ok? && step.value.Heavy? && fuel > 0 {
      NoExtrasBelow(c, scores, level, w);
      ExtrasUnfold(fuel - 1, c, scores, level, w);
      NoneAdded(fuel - 1, c, scores, level + 1, step.value.merged.tx);
    }
  }

  /** Where no coin is added the recursion ends, after at most as many levels as there is value. */
  lemma {:induction false} EndsWithoutExtras(fuel: nat, c: Context, scores: nat -> nat, level: nat, w: Transfer)
    requires Aligned(w) && Uniform(c.p, w.Body()) && c.p.Valid()
    requires NoExtras(c, scores, level, w) && fuel >= TotalIn(w)
    ensures Halts(fuel, c, scores, level, w)
    decreases fuel
  {
    hide StepOf, NoExtras;
    var step := StepOf(c, scores(level), w);
    if step.Ok? && step.value.Heavy? {
      LevelBurnsValue(c, scores(level), w);
      NoExtrasBelow(c, scores, level, w);
      EndsWithoutExtras(fuel - 1, c, scores, level + 1, step.value.merged.tx);
    }
  }

  lemma {:induction false} DownIsUniform(n: nat, c: Context, scores: nat -> nat, level: nat, w: Transfer)
    requires Aligned(w) && Uniform(c.p, w.Body()) && c.p.Valid()
    ensures Down(n, c, scores, level, w).Some? ==> Uniform(c.p, Down(n, c, scores, level, w).value.Body())
    decreases n
  {
    hide StepOf, Uniform;
    var step := StepOf(c, scores(level), w);
    if n > 0 && step.Ok? && step.value.Heavy? {
      LevelBurnsValue(c, scores(level), w);
      DownIsUniform(n - 1, c, scores, level + 1, step.value.merged.tx);
    }
  }

  /** A send-all, or a request over the caller's own coins, never adds a coin and always ends. */
  lemma SendAllEnds(c: Context, scores: nat -> nat, level: nat, w: Transfer)
    requires Aligned(w) && Uniform(c.p, w.Body()) && c.p.Valid()
    requires c.r.isSendAll || c.r.preselected != []
    ensures NoExtras(c, scores, level, w)
    ensures Halts(TotalIn(w), c, scores, level, w)
  {
    hide StepOf, Uniform, Down, Halts;
    forall n: nat ensures !AddsAt(n, c, scores, level, w) {
      var t := Down(n, c, scores, level, w);
      if t.Some? && StepOf(c, scores(level + n), t.value).Ok? && StepOf(c, scores(level + n), t.value).value.Heavy? {
        DownIsUniform(n, c, scores, level, w);
        LevelBurnsValue(c, scores(level + n), t.value);
      }
    }
    EndsWithoutExtras(TotalIn(w), c, scores, level, w);
  }

  /* ----- with added coins ----- */

  /** The recursion, seen from `n` levels down. */
  lemma {:induction false} HaltsFromBelow(n: nat, fuel: nat, c: Context, scores: nat -> nat, level: nat, w: Transfer)
    requires Aligned(w)
    ensures
      var t := Down(n, c, scores, level, w);
      if t.None? then Halts(n + fuel, c, scores, level, w)
      else Halts(fuel, c, scores, level + n, t.value) == Halts(n + fuel, c, scores, level, w)
    decreases n
  {
    hide StepOf;
    var step := StepOf(c, scores(level), w);
    if n > 0 && step.Ok? && step.value.Heavy? {
      HaltsFromBelow(n - 1, fuel, c, scores, level + 1, step.value.merged.tx);
    }
  }

  lemma {:induction false} AddsFromBelow(n: nat, m: nat, c: Context, scores: nat -> nat, level: nat, w: Transfer)
    requires Aligned(w)
    ensures
      var t := Down(n, c, scores, level, w);
      if t.None? then !AddsAt(n + m, c, scores, level, w)
      else AddsAt(m, c, scores, level + n, t.value) == AddsAt(n + m, c, scores, level, w)
    decreases n
  {
    hide StepOf;
    var step := StepOf(c, scores(level), w);
    if n > 0 && step.Ok? && step.value.Heavy? {
      AddsFromBelow(n - 1, m, c, scores, level + 1, step.value.merged.tx);
    }
  }

  /** From level `last` on, no level adds coins. */
  ghost predicate NoneFrom(last: nat, c: Context, scores: nat -> nat, level: nat, w: Transfer)
    requires Aligned(w)
  {
    forall n: nat :: n >= last ==> !AddsAt(n, c, scores, level, w)
  }

  /** The recursion ends exactly when only finitely many of its levels add coins: however heavy the
      merges stay, nothing but added coins can keep it going. */
  lemma EndsIffExtrasStop(c: Context, scores: nat -> nat, level: nat, w: Transfer)
    requires Aligned(w) && Uniform(c.p, w.Body()) && c.p.Valid()
    ensures (exists fuel: nat :: Halts(fuel, c, scores, level, w))
      <==> (exists last: nat :: NoneFrom(last, c, scores, level, w))
  {
    hide Halts, AddsAt, Down, Uniform;
    if n: nat :| NoneFrom(n, c, scores, level, w) {
      var t := Down(n, c, scores, level, w);
      if t.Some? {
        var below := level + n;
        forall m: nat ensures !AddsAt(m, c, scores, below, t.value) {
          AddsFromBelow(n, m, c, scores, level, w);
        }
        DownIsUniform(n, c, scores, level, w);
        EndsWithoutExtras(TotalIn(t.value), c, scores, below, t.value);
        HaltsFromBelow(n, TotalIn(t.value), c, scores, level, w);
      } else {
        HaltsFromBelow(n, 0, c, scores, level, w);
      }
    }
    if fuel: nat :| Halts(fuel, c, scores, level, w) {
      HaltedIsOver(fuel, c, scores, level, w);
      forall n: nat | n >= fuel + 1 ensures !AddsAt(n, c, scores, level, w) {
        AddsFromBelow(fuel + 1, n - (fuel + 1), c, scores, level, w);
      }
      assert NoneFrom(fuel + 1, c, scores, level, w);
    }
  }

  lemma {:induction false} HaltedIsOver(fuel: nat, c: Context, scores: nat -> nat, level: nat, w: Transfer)
    requires Aligned(w) && Halts(fuel, c, scores, level, w)
    ensures Down(fuel + 1, c, scores, level, w).None?
    decreases fuel
  {
    hide StepOf;
    var step := StepOf(c, scores(level), w);
    if step.Ok? && step.value.Heavy? {
      HaltedIsOver(fuel - 1, c, scores, level + 1, step.value.merged.tx);
    }
  }

  /* ----- another measure ----- */

  /** Each level has fewer inputs than the one above: its splits and added coins together are fewer
      than its inputs. */
  ghost predicate InputsFall(c: Context, scores: nat -> nat, level: nat, w: Transfer)
    requires Aligned(w)
  {
    forall n: nat :: InputsFallAt(n, c, scores, level, w)
  }

  ghost predicate InputsFallAt(n: nat, c: Context, scores: nat -> nat, level: nat, w: Transfer)
    requires Aligned(w)
  {
    var t, u := Down(n, c, scores, level, w), Down(n + 1, c, scores, level, w);
    t.Some? && u.Some? ==> |u.value.Body().inputs| < |t.value.Body().inputs|
  }

  /** The recursion then ends, coins added or not, after at most as many levels as there are inputs. */
  lemma {:induction false} EndsWhenInputsFall(fuel: nat, c: Context, scores: nat -> nat, level: nat, w: Transfer)
    requires Aligned(w) && InputsFall(c, scores, level, w) && fuel >= |w.Body().inputs|
    ensures Halts(fuel, c, scores, level, w)
    decreases fuel
  {
    hide StepOf;
    var step := StepOf(c, scores(level), w);
    if step.Ok? && step.value.Heavy? {
      var merge := step.value.merged.tx;
      assert InputsFallAt(0, c, scores, level, w);
      assert Down(1, c, scores, level, w) == Down(0, c, scores, level + 1, merge) == Some(merge);
      var next := level + 1;
      forall n: nat ensures InputsFallAt(n, c, scores, next, merge) {
        assert InputsFallAt(n + 1, c, scores, level, w);
        assert Down(n + 1, c, scores, level, w) == Down(n, c, scores, next, merge);
        assert Down(n + 2, c, scores, level, w) == Down(n + 1, c, scores, next, merge);
      }
      EndsWhenInputsFall(fuel - 1, c, scores, next, merge);
    }
  }
}
