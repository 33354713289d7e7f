/** What being in sync means over a run, and that the methods of the sync manager and the handler of
    a new address are runs of the state machine. */
module DiscoveryRuns {
  import opened Arithmetic
  import opened Wrappers
  import opened Model
  import opened AddressBook
  import opened AddressManager
  import opened SyncManager
  import opened Discovery

  /* ----- being in sync ----- */

  /** `is_synced` reads the scanned prefix, then one counter, then the other, each at its own
      moment. When it says yes, every index up to the last used one it saw had been answered for
      by the first of those moments. */
  lemma SyncedMeansScanned(s: Scheme, start: State, es: seq<Event>, between: seq<Event>, later: seq<Event>)
    requires Injective(s) && s.HasKeys() && Initial(start) && Run(s, start, es).Some?
    requires Run(s, Run(s, start, es).value, between).Some?
    requires Run(s, Run(s, Run(s, start, es).value, between).value, later).Some?
    ensures
      var first := Run(s, start, es).value;
      var second := Run(s, first, between).value;
      var third := Run(s, second, later).value;
      first.next > Max(second.book.external, third.book.internal) ==>
        && (forall i :: 0 <= i <= Max(second.book.external, third.book.internal) ==> i in first.answered)
        && LastUsed(first.book) <= Max(second.book.external, third.book.internal)
  {
    hide Guarded, Known, SendersKnown;
    StartsWell(s, start);
    RunKeepsInvariant(s, start, es);
    var first := Run(s, start, es).value;
    RunGrows(s, first, between);
    RunGrows(s, Run(s, first, between).value, later);
    forall i | 0 <= i < first.next ensures i in first.answered {
      assert i in Span(0, first.next);
    }
  }

  /** A sync manager in the state a run has led to. */
  ghost predicate Matches(st: State, m: SyncManager)
    reads m, m.addressManager, m.addressManager.keys
  {
    st.book == m.addressManager.Contents() && st.next == m.nextSyncStartIndex && st.firstDone == m.firstSyncDone
  }

  lemma MatchesInSync(st: State, m: SyncManager)
    requires Matches(st, m)
    ensures m.IsSynced() <==> InSync(st)
  {
  }

  /** Read in one moment, `is_synced` says that every index up to the last used one was answered for. */
  lemma IsSyncedMeansScanned(s: Scheme, start: State, es: seq<Event>, m: SyncManager)
    requires Injective(s) && s.HasKeys() && Initial(start) && Run(s, start, es).Some?
    requires Matches(Run(s, start, es).value, m)
    ensures m.IsSynced() ==>
      forall i :: 0 <= i <= LastUsed(m.addressManager.Contents()) ==> i in Run(s, start, es).value.answered
  {
    hide Step;
    var st := Run(s, start, es).value;
    assert Run(s, st, []) == Some(st);
    SyncedMeansScanned(s, start, es, [], []);
  }

  /** The scan never reaches past the hardened indexes, so a wallet in sync has unhardened counters:
      all its addresses derive. */
  lemma InSyncIsUnhardened(s: Scheme, start: State, es: seq<Event>)
    requires s.HasKeys() && Initial(start) && Run(s, start, es).Some?
    ensures
      var st := Run(s, start, es).value;
      && st.next <= HARDENED
      && (InSync(st) ==> forall w: WalletAddress :: Reached(st.book, w) ==> TextOf(s, w).Ok?)
  {
    hide Run;
    StartsGuarded(s, start);
    RunKeepsGuarded(s, start, es);
  }

  /* ----- the methods are runs ----- */

  lemma RunThree(s: Scheme, a: State, es: seq<Event>, b: State, c: State, d: State)
    requires |es| == 3 && Step(s, a, es[0]) == Some(b) && Step(s, b, es[1]) == Some(c) && Step(s, c, es[2]) == Some(d)
    ensures Run(s, a, es) == Some(d)
  {
    hide Step;
    assert es[1..][1..] == [es[2]] && es[1..][0] == es[1] && [es[2]][1..] == [];
    assert Run(s, c, [es[2]]) == Run(s, d, []);
  }

  /** The events of a recent scan's first queries. */
  function ScanEvents(node: Node, queries: seq<AddressSet>): seq<Event>
  {
    if queries == [] then []
    else
      var last := queries[|queries| - 1];
      ScanEvents(node, queries[..|queries| - 1])
        + [Ask(last), Answer(match node(last) case None => [] case Some(entries) => entries), Proceed]
  }

  /** Where the loop stands after a scan's first queries. */
  ghost predicate AtQuery(st: State, n: nat, next: U32, now: Book) {
    && st.book == now && st.next == next && 1000 * n <= U32_MAX
    && st.loop == Recent(1000 * n, if n == 0 then 0 else LastUsed(now))
  }

  lemma {:induction false} ScanRuns(s: Scheme, node: Node, st: State, queries: seq<AddressSet>)
    requires st.loop == Recent(0, 0) && IsScan(s, node, st.book, queries) && 1000 * |queries| <= U32_MAX
    ensures Run(s, st, ScanEvents(node, queries)).Some?
    ensures AtQuery(Run(s, st, ScanEvents(node, queries)).value, |queries|, st.next,
      AfterQueries(node, st.book, queries).value)
    decreases |queries|
  {
    hide AsksFor, Absorbed, UsedTexts, LastUsed;
    if queries != [] {
      var n := |queries| - 1;
      var before, last := queries[..n], queries[n];
      ShorterScan(s, node, st.book, queries);
      ScanRuns(s, node, st, before);
      var a := Run(s, st, ScanEvents(node, before)).value;
      assert IsScanStep(s, node, st.book, queries, n);
      var now, after := AfterQueries(node, st.book, before).value, AfterQueries(node, st.book, queries).value;
      var es := [Ask(last), Answer(node(last).value), Proceed];
      OneRound(s, a, n, last, node(last).value, after);
      hide Run, Step, AfterQueries, IsScan, IsScanStep, AtQuery;
      RunAppend(s, st, ScanEvents(node, before), es);
    }
  }

  lemma ShorterScan(s: Scheme, node: Node, b: Book, queries: seq<AddressSet>)
    requires queries != [] && IsScan(s, node, b, queries)
    ensures IsScan(s, node, b, queries[..|queries| - 1])
  {
    hide AsksFor, Absorbed, LastUsed;
    var before := queries[..|queries| - 1];
    forall i | 0 <= i < |before| ensures IsScanStep(s, node, b, before, i) {
      assert IsScanStep(s, node, b, queries, i) && before[..i] == queries[..i];
    }
  }

  /** One round of the recent scan: ask, take the answer in, read the counters. */
  lemma OneRound(s: Scheme, a: State, n: nat, asked: AddressSet, entries: seq<BalanceEntry>, after: Book)
    requires AtQuery(a, n, a.next, a.book) && 1000 * n + 1000 <= U32_MAX
    requires n > 0 ==> 1000 * n < LastUsed(a.book) + 1000
    requires AsksFor(s, 1000 * n, 1000 * n + 1000, asked) && Absorbed(a.book, asked, entries) == Ok(after)
    ensures Run(s, a, [Ask(asked), Answer(entries), Proceed]).Some?
    ensures AtQuery(Run(s, a, [Ask(asked), Answer(entries), Proceed]).value, n + 1, a.next, after)
  {
    hide AsksFor, Absorbed, UsedTexts, LastUsed, Span;
    var es := [Ask(asked), Answer(entries), Proceed];
    var b := Step(s, a, es[0]).value;
    var c := Step(s, b, es[1]).value;
    RunThree(s, a, es, b, c, Step(s, c, es[2]).value);
  }

  /** A recent scan that passes is a run of the loop from the head of the scan to the refresh. */
  lemma RecentScanIsRun(s: Scheme, node: Node, st: State, queries: seq<AddressSet>, after: Book)
    requires st.loop == Recent(0, 0) && IsScan(s, node, st.book, queries)
    requires AfterQueries(node, st.book, queries) == Some(after)
    requires queries != [] && LastUsed(after) + 1000 <= 1000 * |queries| <= U32_MAX
    ensures
      var t := Run(s, st, ScanEvents(node, queries) + [Proceed]);
      t.Some? && t.value.book == after && t.value.next == Max(st.next, 1000 * |queries|) && t.value.loop == Refreshing
  {
    ScanRuns(s, node, st, queries);
    var a := Run(s, st, ScanEvents(node, queries)).value;
    RunAppend(s, st, ScanEvents(node, queries), [Proceed]);
    assert [Proceed][1..] == [];
    assert Step(s, a, Proceed).Some?;
    var t := Step(s, a, Proceed).value;
    hide Step, LastUsed;
    assert Run(s, t, []) == Some(t);
    assert Run(s, a, [Proceed]) == Run(s, t, []);
  }

  /** A far scan that passes is the run of its three steps. */
  lemma FarScanIsRun(s: Scheme, node: Node, st: State, asked: AddressSet, after: Book)
    requires st.loop == Far && st.next + 100 <= U32_MAX
    requires Queried(s, node, st.next, st.next + 100, asked, st.book, after)
    ensures
      var t := Run(s, st, [Ask(asked), Answer(node(asked).value), Proceed]);
      t.Some? && t.value.book == after && t.value.next == st.next + 100 && t.value.loop == Recent(0, 0)
  {
    hide AsksFor, Absorbed, UsedTexts, Span;
    var es := [Ask(asked), Answer(node(asked).value), Proceed];
    var b := Step(s, st, es[0]).value;
    var c := Step(s, b, es[1]).value;
    RunThree(s, st, es, b, c, Step(s, c, es[2]).value);
  }
}
