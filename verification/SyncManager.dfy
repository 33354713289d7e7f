/** Address discovery (daemon/src/sync_manager.rs): the recent scan, the far scan and the test of
    whether the wallet is in sync. Other users of the key file's counters run between the steps of
    the sync loop; `Discovery` takes those interleavings up. */
module SyncManager {
  import opened Arithmetic
  import opened Wrappers
  import opened Model
  import opened AddressBook
  import opened AddressManager

  const NUM_INDEXES_TO_QUERY_FOR_FAR_ADDRESSES: nat := 100
  const NUM_INDEXES_TO_QUERY_FOR_RECENT_ADDRESSES: nat := 1000

  /** What the node answers when asked for the balances of some addresses. */
  type Node = AddressSet -> Option<seq<BalanceEntry>>

  /** Of the addresses asked about, the node gives a balance other than zero to exactly the funded ones,
      in one line each; of no other address does it say that. */
  ghost predicate TellsTruth(entries: seq<BalanceEntry>, asked: AddressSet, funded: set<string>) {
    && (forall t :: (exists i :: Funds(entries, i, t)) <==> t in asked && t in funded)
    && FundsOnce(entries)
  }

  ghost predicate Truthful(node: Node, funded: set<string>) {
    forall asked :: node(asked).Some? ==> TellsTruth(node(asked).value, asked, funded)
  }

  /** Every funded address with index in `[start, end)` is registered, and the last-used index of
      its keychain has reached it. */
  ghost predicate Found(s: Scheme, start: nat, end: nat, funded: set<string>, b: Book) {
    forall w: WalletAddress :: start <= w.index < end && w.cosignerIndex < s.cosigners && OneOf(s, w, funded) ==>
      OneOf(s, w, b.addresses.Keys) && Reached(b, w)
  }

  lemma RangeIsFound(s: Scheme, start: nat, end: nat, asked: AddressSet, before: Book, after: Book, funded: set<string>)
    requires Injective(s) && AsksFor(s, start, end, asked) && TookIn(before, after, asked, asked.Keys * funded)
    ensures Found(s, start, end, funded, after)
  {
    forall w: WalletAddress | start <= w.index < end && w.cosignerIndex < s.cosigners && OneOf(s, w, funded)
      ensures OneOf(s, w, after.addresses.Keys) && Reached(after, w)
    {
      assert Visited(s, start, end, 0, 0, w);
      var t := TextOf(s, w).value;
      assert t in asked.Keys * funded;
      TextDeterminesIndex(s, asked[t], w);
    }
  }

  lemma FoundMore(s: Scheme, end: nat, more: nat, funded: set<string>, before: Book, after: Book)
    requires Found(s, 0, end, funded, before) && Found(s, end, more, funded, after) && Grows(before, after)
    ensures Found(s, 0, more, funded, after)
  {
    forall w: WalletAddress | 0 <= w.index < more && w.cosignerIndex < s.cosigners && OneOf(s, w, funded)
      ensures OneOf(s, w, after.addresses.Keys) && Reached(after, w)
    {
      if w.index < end {
        assert OneOf(s, w, before.addresses.Keys) && Reached(before, w);
      }
    }
  }

  /** `top` bounds the index of every funded address. */
  ghost predicate Bounds(s: Scheme, top: nat, funded: set<string>) {
    forall w :: OneOf(s, w, funded) ==> w.index <= top
  }

  /** An answer cannot raise the last-used indexes past the greatest funded index. */
  lemma LastUsedIsFunded(s: Scheme, asked: AddressSet, before: Book, after: Book, funded: set<string>, top: nat)
    requires Genuine(s, asked) && TookIn(before, after, asked, asked.Keys * funded) && Bounds(s, top, funded)
    ensures LastUsed(after) <= Max(LastUsed(before), top)
  {
    var seen := asked.Keys * funded;
    forall t | t in seen ensures asked[t].index <= top {
      assert OneOf(s, asked[t], funded);
    }
  }

  /** The node answers every query, and truthfully. */
  ghost predicate Reliable(node: Node, funded: set<string>) {
    Truthful(node, funded) && forall asked :: node(asked).Some?
  }

  /** What a query of `[start, end)` must come to, given what was asked. */
  ghost predicate QueryOutcome(s: Scheme, node: Node, start: nat, end: nat, asked: AddressSet, before: Book,
                               after: Book, r: Outcome)
  {
    if start < end && s.cosigners > 0 && end > HARDENED then r == Fail(Bip32Derivation)
    else
      && AsksFor(s, start, end, asked)
      && match node(asked)
         case None => r == Fail(FetchFailed)
         case Some(entries) =>
           Absorbed(before, asked, entries) == match r { case Pass => Ok(after) case Fail(e) => Err(e) }
  }

  /** Below the hardened indexes a reliable node's answer is always taken in. */
  lemma ReliableQueryPasses(s: Scheme, node: Node, funded: set<string>, start: nat, end: nat, asked: AddressSet,
                            before: Book, after: Book, r: Outcome)
    requires QueryOutcome(s, node, start, end, asked, before, after, r)
    ensures Reliable(node, funded) && end <= HARDENED ==> r.Pass?
    ensures r.Pass? ==> Queried(s, node, start, end, asked, before, after)
  {
    hide AsksFor, Absorbed, FundsOnce, Funds;
    if Reliable(node, funded) && end <= HARDENED {
      AbsorbedIffAsked(before, asked, node(asked).value);
      assert TellsTruth(node(asked).value, asked, funded);
    }
  }

  /** What one query of `[start, end)` did. */
  ghost predicate Queried(s: Scheme, node: Node, start: nat, end: nat, asked: AddressSet, before: Book, after: Book) {
    && AsksFor(s, start, end, asked) && node(asked).Some?
    && Absorbed(before, asked, node(asked).value) == Ok(after)
  }

  /** Where a scan from index 0 stands: `[0, index)` has been asked about. */
  ghost predicate Scanned(s: Scheme, node: Node, funded: set<string>, top: nat, index: nat, before: Book, now: Book) {
    && Grows(before, now)
    && (Injective(s) && Truthful(node, funded) ==> Found(s, 0, index, funded, now))
    && (Truthful(node, funded) && Bounds(s, top, funded) ==> LastUsed(now) <= Max(LastUsed(before), top))
  }

  lemma ScanGoesOn(s: Scheme, node: Node, funded: set<string>, top: nat, index: nat, end: nat, asked: AddressSet,
                   before: Book, now: Book, after: Book)
    requires Scanned(s, node, funded, top, index, before, now) && Queried(s, node, index, end, asked, now, after)
    ensures Scanned(s, node, funded, top, end, before, after)
  {
    hide Found, AsksFor, Absorbed, TookIn, Bounds, LastUsed, Truthful, UsedTexts, Genuine;
    QueryFinds(s, node, funded, index, end, asked, now, after);
    AbsorbedFacts(now, asked, node(asked).value);
    if Truthful(node, funded) {
      TruthAbout(node, funded, asked);
      if Injective(s) {
        FoundMore(s, index, end, funded, now, after);
      }
      if Bounds(s, top, funded) {
        AskedIsGenuine(s, index, end, asked);
        LastUsedIsFunded(s, asked, now, after, funded, top);
      }
    }
  }

  /** What one query of a range finds. */
  lemma QueryFinds(s: Scheme, node: Node, funded: set<string>, start: nat, end: nat, asked: AddressSet, before: Book,
                   after: Book)
    requires Queried(s, node, start, end, asked, before, after)
    ensures Grows(before, after)
    ensures Injective(s) && Truthful(node, funded) ==> Found(s, start, end, funded, after)
  {
    hide Found, AsksFor, Absorbed, TookIn, Truthful, UsedTexts, Injective;
    AbsorbedFacts(before, asked, node(asked).value);
    TookInGrows(before, after, asked, UsedTexts(node(asked).value));
    if Injective(s) && Truthful(node, funded) {
      TruthAbout(node, funded, asked);
      RangeIsFound(s, start, end, asked, before, after, funded);
    }
  }

  lemma TookInGrows(before: Book, after: Book, asked: AddressSet, seen: set<string>)
    requires TookIn(before, after, asked, seen)
    ensures Grows(before, after)
  {
  }

  lemma TruthAbout(node: Node, funded: set<string>, asked: AddressSet)
    requires Truthful(node, funded) && node(asked).Some?
    ensures UsedTexts(node(asked).value) == asked.Keys * funded
  {
    hide UsedTexts, Funds, FundsOnce;
    var entries := node(asked).value;
    UsedAreFunded(entries);
    assert TellsTruth(entries, asked, funded);
  }

  lemma AskedIsGenuine(s: Scheme, start: nat, end: nat, asked: AddressSet)
    requires AsksFor(s, start, end, asked)
    ensures Genuine(s, asked)
  {
  }

  /* ----- the queries of a recent scan ----- */

  /** The book once the node's answers to some queries have been taken in. */
  ghost function AfterQueries(node: Node, b: Book, queries: seq<AddressSet>): Option<Book> {
    if queries == [] then Some(b)
    else
      var last := queries[|queries| - 1];
      match AfterQueries(node, b, queries[..|queries| - 1])
      case None => None
      case Some(now) =>
        if node(last).None? then None
        else match Absorbed(now, last, node(last).value) case Err(_) => None case Ok(after) => Some(after)
  }

  /** The queries go through the indexes a thousand at a time, each made because the last used index
      was then less than 1000 below. */
  ghost predicate IsScan(s: Scheme, node: Node, b: Book, queries: seq<AddressSet>) {
    && AfterQueries(node, b, queries).Some?
    && forall i :: 0 <= i < |queries| ==> IsScanStep(s, node, b, queries, i)
  }

  ghost predicate IsScanStep(s: Scheme, node: Node, b: Book, queries: seq<AddressSet>, i: nat)
    requires i < |queries|
  {
    && AsksFor(s, 1000 * i, 1000 * i + 1000, queries[i])
    && var now := AfterQueries(node, b, queries[..i]);
       now.Some? && (i > 0 ==> 1000 * i < LastUsed(now.value) + 1000)
  }

  /** Why a scan stops short: it has run out of u32, or the next query does not pass. */
  ghost predicate ScanStops(s: Scheme, node: Node, b: Book, queries: seq<AddressSet>, r: Outcome)
    requires AfterQueries(node, b, queries).Some?
  {
    var now, index, end := AfterQueries(node, b, queries).value, 1000 * |queries|, 1000 * |queries| + 1000;
    || (r == Fail(Overflow) && (end > U32_MAX || (queries != [] && LastUsed(now) + 1000 > U32_MAX)))
    || (r.Fail? && exists asked, after :: QueryOutcome(s, node, index, end, asked, now, after, r))
  }

  ghost predicate FarScanStops(s: Scheme, node: Node, b: Book, start: nat, r: Outcome) {
    var end := start + NUM_INDEXES_TO_QUERY_FOR_FAR_ADDRESSES;
    || (r == Fail(Overflow) && end > U32_MAX)
    || (r.Fail? && exists asked, after :: QueryOutcome(s, node, start, end, asked, b, after, r))
  }

  lemma FarStopsAtAQuery(s: Scheme, node: Node, b: Book, start: nat, asked: AddressSet, after: Book, r: Outcome)
    requires r.Fail? && QueryOutcome(s, node, start, start + 100, asked, b, after, r)
    ensures FarScanStops(s, node, b, start, r)
  {
  }

  lemma StopsAtTheEnd(s: Scheme, node: Node, b: Book, queries: seq<AddressSet>, now: Book)
    requires AfterQueries(node, b, queries) == Some(now)
    requires 1000 * |queries| + 1000 > U32_MAX || (queries != [] && LastUsed(now) + 1000 > U32_MAX)
    ensures ScanStops(s, node, b, queries, Fail(Overflow))
  {
  }

  lemma StopsAtAQuery(s: Scheme, node: Node, b: Book, queries: seq<AddressSet>, now: Book, asked: AddressSet,
                      after: Book, r: Outcome)
    requires AfterQueries(node, b, queries) == Some(now) && r.Fail?
    requires QueryOutcome(s, node, 1000 * |queries|, 1000 * |queries| + 1000, asked, now, after, r)
    ensures ScanStops(s, node, b, queries, r)
  {
  }

  lemma OneMoreQuery(s: Scheme, node: Node, b: Book, queries: seq<AddressSet>, now: Book, asked: AddressSet,
                     after: Book)
    requires IsScan(s, node, b, queries) && AfterQueries(node, b, queries) == Some(now)
    requires |queries| > 0 ==> 1000 * |queries| < LastUsed(now) + 1000
    requires Queried(s, node, 1000 * |queries|, 1000 * |queries| + 1000, asked, now, after)
    ensures IsScan(s, node, b, queries + [asked]) && AfterQueries(node, b, queries + [asked]) == Some(after)
  {
    hide AsksFor, Absorbed;
    var more := queries + [asked];
    assert more[..|queries|] == queries;
    forall i | 0 <= i < |more| ensures IsScanStep(s, node, b, more, i) {
      if i < |queries| {
        assert IsScanStep(s, node, b, queries, i) && more[..i] == queries[..i];
      }
    }
  }

  /** A node and a wallet for which no scan can fail. */
  ghost predicate Unstoppable(s: Scheme, node: Node, funded: set<string>, top: nat, before: Book) {
    Reliable(node, funded) && Bounds(s, top, funded) && Max(LastUsed(before), top) + 2000 <= HARDENED
  }

  /** At the head of the scan's loop. */
  ghost predicate Scanning(s: Scheme, node: Node, funded: set<string>, top: nat, before: Book, queries: seq<AddressSet>,
                           now: Book, index: nat, maxUsed: nat)
  {
    && index == 1000 * |queries| && IsScan(s, node, before, queries) && AfterQueries(node, before, queries) == Some(now)
    && (if index == 0 then maxUsed == 0 else maxUsed == LastUsed(now))
    && index < maxUsed + 2000
    && Scanned(s, node, funded, top, index, before, now)
  }

  lemma ScanBegins(s: Scheme, node: Node, funded: set<string>, top: nat, before: Book)
    ensures Scanning(s, node, funded, top, before, [], before, 0, 0)
  {
  }

  lemma ScanningIs(s: Scheme, node: Node, funded: set<string>, top: nat, before: Book, queries: seq<AddressSet>,
                   now: Book, index: nat, maxUsed: nat)
    requires Scanning(s, node, funded, top, before, queries, now, index, maxUsed) && index < maxUsed + 1000
    ensures index == 1000 * |queries| && IsScan(s, node, before, queries)
    ensures AfterQueries(node, before, queries) == Some(now)
    ensures Unstoppable(s, node, funded, top, before) ==> Reliable(node, funded) && index + 1000 <= HARDENED
  {
    hide Found, Bounds, LastUsed, Truthful, IsScan, AfterQueries;
  }

  lemma ScanningGoesOn(s: Scheme, node: Node, funded: set<string>, top: nat, before: Book, queries: seq<AddressSet>,
                       now: Book, index: nat, maxUsed: nat, asked: AddressSet, after: Book)
    requires Scanning(s, node, funded, top, before, queries, now, index, maxUsed) && index < maxUsed + 1000
    requires Queried(s, node, index, index + 1000, asked, now, after)
    ensures Scanning(s, node, funded, top, before, queries + [asked], after, index + 1000, LastUsed(after))
    ensures IsScan(s, node, before, queries + [asked]) && AfterQueries(node, before, queries + [asked]) == Some(after)
    ensures Unstoppable(s, node, funded, top, before) ==> LastUsed(after) + 1000 <= U32_MAX
  {
    hide Scanned, Queried, Grows, IsScan, AfterQueries, LastUsed, Bounds, Truthful;
    ScanGoesOn(s, node, funded, top, index, index + 1000, asked, before, now, after);
    LastUsedGrows(now, after, s, node, index, index + 1000, asked);
    OneMoreQuery(s, node, before, queries, now, asked, after);
    StaysBelow(s, node, funded, top, index + 1000, before, after);
  }

  /** While a scan goes on, a reliable node keeps it below the greatest index it starts from or finds. */
  lemma StaysBelow(s: Scheme, node: Node, funded: set<string>, top: nat, index: nat, before: Book, now: Book)
    requires Scanned(s, node, funded, top, index, before, now)
    ensures Reliable(node, funded) && Bounds(s, top, funded) ==> LastUsed(now) <= Max(LastUsed(before), top)
  {
    hide Found, Bounds, LastUsed, Truthful;
  }

  lemma IsLastUsed(m: AddressManager)
    ensures m.keys.LastUsedIndex() == LastUsed(m.Contents())
  {
  }

  class SyncManager {
    const addressManager: AddressManager
    var nextSyncStartIndex: U32
    var firstSyncDone: bool

    constructor (addressManager: AddressManager)
      ensures this.addressManager == addressManager && nextSyncStartIndex == 0 && !firstSyncDone
    {
      this.addressManager := addressManager;
      nextSyncStartIndex, firstSyncDone := 0, false;
    }

    predicate IsSynced()
      reads this, addressManager.keys
    {
      nextSyncStartIndex > addressManager.keys.LastUsedIndex() && firstSyncDone
    }

    method CollectAddresses(node: Node, start: U32, end: U32) returns (r: Outcome, ghost asked: AddressSet)
      requires start <= end && addressManager.Valid()
      modifies addressManager, addressManager.keys
      ensures r.Pass? ==> addressManager.Valid()
      ensures QueryOutcome(addressManager.scheme, node, start, end, asked, old(addressManager.Contents()),
                           addressManager.Contents(), r)
    {
      hide Genuine;
      asked := map[];
      var addresses := addressManager.AddressesToQuery(start, end);
      if addresses.Err? {
        return Fail(addresses.error), asked;
      }
      asked := addresses.value;
      var response := node(addresses.value);
      if response.None? {
        return Fail(FetchFailed), asked;
      }
      AskedIsGenuine(addressManager.scheme, start, end, asked);
      r := addressManager.UpdateAddressesAndLastUsedIndexes(addresses.value, response.value);
    }

    /** The scan of the first thousands of indexes: it ends at the first multiple of 1000 that is
        at least 1000 past the last used index. With a node that answers truthfully, every funded
        address below that end is found, so both the end and the last used index are fixed by the
        greatest funded index and the index the wallet started from; and with one that always
        answers, the scan succeeds while those stay 2000 below the hardened indexes. */
    method CollectRecentAddresses(node: Node, ghost funded: set<string>, ghost top: nat)
      returns (r: Outcome, ghost queries: seq<AddressSet>)
      requires addressManager.Valid()
      modifies this`nextSyncStartIndex, addressManager, addressManager.keys
      ensures IsScan(addressManager.scheme, node, old(addressManager.Contents()), queries)
      ensures r.Fail? ==>
        && nextSyncStartIndex == old(nextSyncStartIndex)
        && ScanStops(addressManager.scheme, node, old(addressManager.Contents()), queries, r)
      ensures r.Pass? ==>
        var s, before, after := addressManager.scheme, old(addressManager.Contents()), addressManager.Contents();
        var scanEnd := 1000 * |queries|;
        && addressManager.Valid() && Grows(before, after) && AfterQueries(node, before, queries) == Some(after)
        && LastUsed(after) + 1000 <= scanEnd < LastUsed(after) + 2000
        && nextSyncStartIndex == Max(old(nextSyncStartIndex), scanEnd)
        && Scanned(s, node, funded, top, scanEnd, before, after)
        && (Truthful(node, funded) && Bounds(s, top, funded) ==> scanEnd < Max(LastUsed(before), top) + 2000)
        && (firstSyncDone ==> IsSynced())
      ensures
        (&& Reliable(node, funded) && Bounds(addressManager.scheme, top, funded)
         && Max(LastUsed(old(addressManager.Contents())), top) + 2000 <= HARDENED)
        ==> r.Pass?
    {
      ghost var s, before := addressManager.scheme, addressManager.Contents();
      var index: U32 := 0;
      var maxUsedIndex: U32 := 0;
      queries := [];
      ScanBegins(s, node, funded, top, before);
      while index < maxUsedIndex + NUM_INDEXES_TO_QUERY_FOR_RECENT_ADDRESSES
        invariant addressManager.Valid() && nextSyncStartIndex == old(nextSyncStartIndex)
        invariant Scanning(s, node, funded, top, before, queries, addressManager.Contents(), index, maxUsedIndex)
        decreases U32_MAX - index
      {
        hide Scanning, IsScan, ScanStops, Reliable, Bounds, LastUsed;
        r, maxUsedIndex, queries := ScanThousand(node, funded, top, before, queries, index, maxUsedIndex);
        if r.Fail? {
          return r, queries;
        }
        index := index + NUM_INDEXES_TO_QUERY_FOR_RECENT_ADDRESSES;
      }
      if index > nextSyncStartIndex {
        nextSyncStartIndex := index;
      }
      r := Pass;
    }

    /** One round of the recent scan: query the thousand indexes from `index`, then read the counters. */
    method ScanThousand(node: Node, ghost funded: set<string>, ghost top: nat, ghost before: Book,
                        ghost queries: seq<AddressSet>, index: U32, maxUsedIndex: U32)
      returns (r: Outcome, nextMax: U32, ghost more: seq<AddressSet>)
      requires addressManager.Valid() && index < maxUsedIndex + 1000
      requires Scanning(addressManager.scheme, node, funded, top, before, queries, addressManager.Contents(), index,
                        maxUsedIndex)
      modifies addressManager, addressManager.keys
      ensures r.Pass? ==>
        && addressManager.Valid() && index + 1000 <= U32_MAX
        && Scanning(addressManager.scheme, node, funded, top, before, more, addressManager.Contents(),
                    index + 1000, nextMax)
      ensures IsScan(addressManager.scheme, node, before, more)
      ensures r.Fail? ==> ScanStops(addressManager.scheme, node, before, more, r)
      ensures Unstoppable(addressManager.scheme, node, funded, top, before) ==> r.Pass?
    {
      hide IsScan, AfterQueries, QueryOutcome, LastUsed, ScanStops, Reliable, Bounds, Scanned, Queried, Genuine,
        CacheIsDerived, Max, Scanning, Unstoppable;
      ghost var s, now := addressManager.scheme, addressManager.Contents();
      nextMax, more := maxUsedIndex, queries;
      ScanningIs(s, node, funded, top, before, queries, now, index, maxUsedIndex);
      if index + NUM_INDEXES_TO_QUERY_FOR_RECENT_ADDRESSES > U32_MAX {
        StopsAtTheEnd(s, node, before, queries, now);
        return Fail(Overflow), nextMax, more;
      }
      ghost var asked: AddressSet;
      r, asked := CollectAddresses(node, index, index + NUM_INDEXES_TO_QUERY_FOR_RECENT_ADDRESSES);
      ReliableQueryPasses(s, node, funded, index, index + 1000, asked, now, addressManager.Contents(), r);
      if r.Fail? {
        StopsAtAQuery(s, node, before, queries, now, asked, addressManager.Contents(), r);
        return r, nextMax, more;
      }
      more := queries + [asked];
      nextMax := addressManager.keys.LastUsedIndex();
      IsLastUsed(addressManager);
      ScanningGoesOn(s, node, funded, top, before, queries, now, index, maxUsedIndex, asked, addressManager.Contents());
      if nextMax + NUM_INDEXES_TO_QUERY_FOR_RECENT_ADDRESSES > U32_MAX {
        StopsAtTheEnd(s, node, before, more, addressManager.Contents());
        return Fail(Overflow), nextMax, more;
      }
    }

    /** The next 100 indexes, wherever the scan has got to. */
    method CollectFarAddresses(node: Node, ghost funded: set<string>) returns (r: Outcome, ghost asked: AddressSet)
      requires addressManager.Valid()
      modifies this`nextSyncStartIndex, addressManager, addressManager.keys
      ensures r.Fail? ==>
        && nextSyncStartIndex == old(nextSyncStartIndex)
        && FarScanStops(addressManager.scheme, node, old(addressManager.Contents()), nextSyncStartIndex, r)
      ensures Reliable(node, funded) && old(nextSyncStartIndex) + 100 <= HARDENED ==> r.Pass?
      ensures r.Pass? ==>
        var s, before, after := addressManager.scheme, old(addressManager.Contents()), addressManager.Contents();
        && addressManager.Valid() && Grows(before, after)
        && nextSyncStartIndex == old(nextSyncStartIndex) + 100
        && Queried(s, node, old(nextSyncStartIndex), nextSyncStartIndex, asked, before, after)
        && (Injective(s) && Truthful(node, funded) ==>
          Found(s, old(nextSyncStartIndex), nextSyncStartIndex, funded, after))
    {
      hide Absorbed, Found, Genuine, Queried, QueryOutcome, Reliable, Truthful, Injective;
      var start := nextSyncStartIndex;
      if start + NUM_INDEXES_TO_QUERY_FOR_FAR_ADDRESSES > U32_MAX {
        return Fail(Overflow), map[];
      }
      ghost var s, before := addressManager.scheme, addressManager.Contents();
      r, asked := CollectAddresses(node, start, start + NUM_INDEXES_TO_QUERY_FOR_FAR_ADDRESSES);
      ReliableQueryPasses(s, node, funded, start, start + 100, asked, before, addressManager.Contents(), r);
      if r.Fail? {
        FarStopsAtAQuery(s, node, before, start, asked, addressManager.Contents(), r);
        return r, asked;
      }
      QueryFinds(s, node, funded, start, start + 100, asked, before, addressManager.Contents());
      nextSyncStartIndex := nextSyncStartIndex + NUM_INDEXES_TO_QUERY_FOR_FAR_ADDRESSES;
    }
  }

  /** No funded index lies 1000 or more past every smaller one. */
  ghost predicate WithinGapLimit(s: Scheme, funded: set<string>) {
    forall w: WalletAddress :: OneOf(s, w, funded) && w.index >= 1000 ==>
      exists v: WalletAddress :: v.cosignerIndex < s.cosigners && OneOf(s, v, funded)
        && w.index - 1000 < v.index < w.index
  }

  /** A wallet whose funded indexes leave no gap of 1000 is found whole, however far they reach. */
  lemma {:induction false} GapLimitSuffices(s: Scheme, funded: set<string>, b: Book, scanEnd: nat, w: WalletAddress)
    requires WithinGapLimit(s, funded) && Found(s, 0, scanEnd, funded, b) && LastUsed(b) + 1000 <= scanEnd
    requires w.cosignerIndex < s.cosigners && OneOf(s, w, funded)
    ensures OneOf(s, w, b.addresses.Keys) && Reached(b, w)
    decreases w.index
  {
    if w.index >= 1000 {
      var v: WalletAddress :| v.cosignerIndex < s.cosigners && OneOf(s, v, funded)
        && w.index - 1000 < v.index < w.index;
      GapLimitSuffices(s, funded, b, scanEnd, v);
    }
  }

  lemma LastUsedGrows(before: Book, after: Book, s: Scheme, node: Node, start: nat, end: nat, asked: AddressSet)
    requires Queried(s, node, start, end, asked, before, after)
    ensures LastUsed(before) <= LastUsed(after)
  {
    hide AsksFor;
    AbsorbedFacts(before, asked, node(asked).value);
  }
}
