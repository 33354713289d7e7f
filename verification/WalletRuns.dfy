/** Sends, refreshes and new addresses, one after another: what keeps a wallet ready, over every run
    (daemon/src/service/send.rs, daemon/src/sync_manager.rs). */
module WalletRuns {
  import opened Wrappers
  import opened Sequences
  import opened Model
  import opened AddressBook
  import opened Ledger
  import opened UtxoIndex
  import opened NodeView
  import opened MempoolReplay
  import opened UtxoManager
  import opened SigningTheorems
  import opened EndToEnd
  import opened Send

  /* ----- the scripts of gathered coins ----- */

  /** Everything the response names an address for is locked by that address's script. */
  ghost predicate HonestScripts(view: View) {
    && (forall u :: u in view.utxos && u.address.Some? ==> u.entry.script == PayToAddressScript(u.address.value))
    && forall e :: e in view.mempool ==> HonestListing(e.receiving)
  }

  ghost predicate HonestListing(ts: seq<RpcTransaction>) {
    forall t :: t in ts ==> HonestOutputs(t.outputs)
  }

  ghost predicate HonestOutputs(os: seq<RpcOutput>) {
    forall o :: o in os && o.address.Some? ==> o.script == PayToAddressScript(o.address.value)
  }

  lemma OwnerDerives(s: Scheme, book: AddressSet, a: Address)
    requires Genuine(s, book) && TextTellsAddresses(s) && OwnerIn(book, s.text)(a).Some?
    ensures Derived(s, OwnerIn(book, s.text)(a).value) == Ok(a)
  {
    var w := OwnerIn(book, s.text)(a).value;
    assert TextOf(s, w) == Ok(s.text(a));
  }

  lemma {:induction false} ConfirmedAreOwn(s: Scheme, book: AddressSet, exclude: set<Coin>, us: seq<RpcUtxo>)
    requires Genuine(s, book) && TextTellsAddresses(s) && Collect(Confirmed(OwnerIn(book, s.text), exclude), us).Ok?
    requires forall u :: u in us && u.address.Some? ==> u.entry.script == PayToAddressScript(u.address.value)
    ensures AllOwn(s, Collect(Confirmed(OwnerIn(book, s.text), exclude), us).value)
  {
    hide Genuine, TextTellsAddresses, Derived, PayToAddressScript;
    if us != [] {
      ConfirmedAreOwn(s, book, exclude, us[1..]);
      var u := us[0];
      assert u in us;
      if u.address.Some? && OwnerIn(book, s.text)(u.address.value).Some? {
        OwnerDerives(s, book, u.address.value);
      }
    }
  }

  lemma {:induction false} OutputsAreOwn(s: Scheme, book: AddressSet, exclude: set<Coin>, id: TxId,
                                         outputs: seq<RpcOutput>, i: nat)
    requires Genuine(s, book) && TextTellsAddresses(s) && HonestOutputs(outputs)
    requires i <= |outputs| && Received(OwnerIn(book, s.text), exclude, id, outputs, i).Ok?
    ensures AllOwn(s, Received(OwnerIn(book, s.text), exclude, id, outputs, i).value)
    decreases |outputs| - i
  {
    hide Genuine, TextTellsAddresses, Derived, PayToAddressScript;
    if i < |outputs| {
      OutputsAreOwn(s, book, exclude, id, outputs, i + 1);
      var o := outputs[i];
      if OwnerIn(book, s.text)(o.address.value).Some? {
        OwnerDerives(s, book, o.address.value);
      }
    }
  }

  lemma {:induction false} ListingIsOwn(s: Scheme, book: AddressSet, exclude: set<Coin>, ts: seq<RpcTransaction>)
    requires Genuine(s, book) && TextTellsAddresses(s) && HonestListing(ts)
    requires Collect(ReceivedBy(OwnerIn(book, s.text), exclude), ts).Ok?
    ensures AllOwn(s, Collect(ReceivedBy(OwnerIn(book, s.text), exclude), ts).value)
  {
    hide Genuine, TextTellsAddresses, OwnScript, HonestOutputs;
    if ts != [] {
      assert ts[0] in ts;
      OutputsAreOwn(s, book, exclude, ts[0].id.value, ts[0].outputs, 0);
      ListingIsOwn(s, book, exclude, ts[1..]);
    }
  }

  lemma {:induction false} ReceivedAreOwn(s: Scheme, book: AddressSet, exclude: set<Coin>,
                                          mempool: seq<RpcMempoolEntry>)
    requires Genuine(s, book) && TextTellsAddresses(s) && forall e :: e in mempool ==> HonestListing(e.receiving)
    requires Collect(ReceivedAt(OwnerIn(book, s.text), exclude), mempool).Ok?
    ensures AllOwn(s, Collect(ReceivedAt(OwnerIn(book, s.text), exclude), mempool).value)
  {
    hide Genuine, TextTellsAddresses, OwnScript, HonestListing;
    if mempool != [] {
      assert mempool[0] in mempool;
      ListingIsOwn(s, book, exclude, mempool[0].receiving);
      ReceivedAreOwn(s, book, exclude, mempool[1..]);
    }
  }

  /** Every coin gathered from an honest response is locked by its own address's script. */
  lemma GatheredAreOwn(s: Scheme, book: AddressSet, view: View)
    requires Genuine(s, book) && TextTellsAddresses(s) && HonestScripts(view)
    requires Gathered(OwnerIn(book, s.text), view).Ok?
    ensures OwnCoins(s, ByOutpoint(Gathered(OwnerIn(book, s.text), view).value))
  {
    hide Genuine, TextTellsAddresses, OwnScript, HonestListing, Excluded, Confirmed, ReceivedAt;
    var owner, exclude := OwnerIn(book, s.text), Excluded(view.mempool);
    GatheredIs(owner, view);
    ConfirmedAreOwn(s, book, exclude, view.utxos);
    ReceivedAreOwn(s, book, exclude, view.mempool);
    ByOutpointHolds(Gathered(owner, view).value);
  }

  /* ----- a refresh ----- */

  /** What a refresh does: nothing, if something needed is missing from the response; else the
      node's coins, with the mempool list replayed over them. */
  ghost predicate Refreshes(s: Scheme, view: View, before: Wallet, after: Wallet) {
    var gathered := Gathered(OwnerIn(before.book.addresses, s.text), view);
    if gathered.Err? then after == before
    else
      && after.book == before.book && AllReplayable(before.mempool)
      && (after.mempool, after.coins)
           == Kept(ByOutpoint(gathered.value), before.mempool, OwnerIn(before.book.addresses, s.text))
      && (NoDup(Outpoints(gathered.value)) && Refreshed(ByOutpoint(gathered.value), before.mempool) ==>
            Agrees(after.index, after.coins))
  }

  /** The node's two answers, each of which may fail to come. */
  method RefreshUtxos(u: UtxoManager, mempool: Option<seq<RpcMempoolEntry>>, utxos: Option<seq<RpcUtxo>>)
    returns (r: Outcome)
    requires u.Usable()
    modifies u
    ensures mempool.None? || utxos.None? ==> r == Fail(FetchFailed) && StateOf(u) == old(StateOf(u)) && u.Usable()
    ensures mempool.Some? && utxos.Some? ==>
      && Refreshes(u.addressManager.scheme, View(utxos.value, mempool.value), old(StateOf(u)), StateOf(u))
      && (r.Pass? <==> Gathered(u.Owner(), View(utxos.value, mempool.value)).Ok?) && u.Usable()
  {
    hide Gathered, Kept, ByOutpoint, NoDup, Agrees, Unspent, Ledger.WellFormed, UtxoManager.Indexed, Replayable;
    if mempool.None? || utxos.None? {
      return Fail(FetchFailed);
    }
    r := u.UpdateUtxoSet(View(utxos.value, mempool.value));
  }

  /** A response that names no coin twice and none that descends from another, with honest scripts. */
  ghost predicate GoodResponse(s: Scheme, book: AddressSet, view: View) {
    var gathered := Gathered(OwnerIn(book, s.text), view);
    && gathered.Ok? && NoDup(Outpoints(gathered.value)) && Unspent(ByOutpoint(gathered.value).Keys)
    && HonestScripts(view)
  }

  /** A good response makes any wallet ready whose mempool list is sound, whatever its coins were. */
  lemma RefreshMakesReady(e: Setup, s: Scheme, view: View, before: Wallet, after: Wallet)
    requires Fits(e, s) && Genuine(s, before.book.addresses) && AllSound(before.mempool)
    requires GoodResponse(s, before.book.addresses, view) && Refreshes(s, view, before, after)
    ensures Ready(e, s, after)
  {
    hide Gathered, Kept, ByOutpoint, NoDup, Agrees, Unspent, Genuine, SingleKey, TextTellsAddresses, OwnCoins,
      HonestScripts, PaysPayees, Ledger.WellFormed, Replayable, Outpoints;
    var book, owner := before.book.addresses, OwnerIn(before.book.addresses, s.text);
    var m := ByOutpoint(Gathered(owner, view).value);
    GatheredAreOwn(s, book, view);
    SoundIsReplayable(before.mempool);
    KeptUnspent(m, before.mempool, owner);
    KeptReplays(m, before.mempool, owner);
    KeptAreSound(m, before.mempool, owner);
    ReplayIsOwn(s, book, m, after.mempool);
  }

  lemma SoundIsReplayable(ws: seq<Transfer>)
    requires AllSound(ws)
    ensures AllReplayable(ws) && forall w :: w in ws ==> Ledger.WellFormed(w) && PaysPayees(w)
  {
  }

  lemma KeptAreSound(m: Coins, ws: seq<Transfer>, owner: Owner)
    requires AllSound(ws) && AllReplayable(ws)
    ensures AllSound(Kept(m, ws, owner).0)
  {
    hide Kept, Replayable, Ledger.WellFormed, PaysPayees;
    KeptIsSubsequence(m, ws, owner);
    SubsequenceMembers(Kept(m, ws, owner).0, ws);
  }

  /* ----- runs ----- */

  datatype Step =
    | Serve(x: Call, t: Trace, result: Result<seq<TxId>>)
    | Refresh(view: View)
    | Receive
    | Learn(asked: AddressSet, entries: seq<BalanceEntry>)

  /** One critical section: a send, a refresh, a new receiving address, a node's answer about
      addresses that were asked about. */
  ghost predicate Follows(e: Setup, s: Scheme, step: Step, before: Wallet, after: Wallet) {
    match step
    case Serve(x, t, result) => Served(e, s, x, before, after, t, result)
    case Refresh(view) => Refreshes(s, view, before, after)
    case Receive => after == before.(book := NewReceiving(s, before.book).0)
    case Learn(asked, entries) =>
      && Genuine(s, asked) && Absorbed(before.book, asked, entries).Ok?
      && after == before.(book := Absorbed(before.book, asked, entries).value)
  }

  /** What is supposed of a step: of a signed batch, that it asks for something and adds no coin
      twice; of a response that is complete, that it is good. */
  ghost predicate Tame(e: Setup, s: Scheme, step: Step, before: Wallet) {
    match step
    case Serve(x, t, _) => SignedBatch(e, t.created).Ok? ==> Harmless(e, x, before.index, t.r)
    case Refresh(view) =>
      Gathered(OwnerIn(before.book.addresses, s.text), view).Ok? ==> GoodResponse(s, before.book.addresses, view)
    case Receive => true
    case Learn(_, _) => true
  }

  /** Nothing but a refusal by the node stops a signed batch. */
  ghost predicate OnlyRefused(e: Setup, step: Step) {
    step.Serve? && SignedBatch(e, step.t.created).Ok? ==> step.result.Ok? || step.result == Err(Rejected)
  }

  lemma StepKeepsReady(e: Setup, s: Scheme, step: Step, before: Wallet, after: Wallet)
    requires Ready(e, s, before) && Follows(e, s, step, before, after) && Tame(e, s, step, before)
    ensures Ready(e, s, after) && OnlyRefused(e, step)
  {
    hide Served, Refreshes, Fits, Genuine, Healthy, AllSound, Harmless, GoodResponse, SignedBatch, Gathered, Absorbed,
      NewReceiving;
    match step
    case Serve(x, t, result) =>
      if SignedBatch(e, t.created).Ok? {
        ServedIsSafe(e, s, x, before, after, t, result);
      } else {
        NotServedIsSafe(e, s, x, before, after, t, result);
      }
    case Refresh(view) =>
      RefreshKeepsReady(e, s, view, before, after);
    case Receive =>
    case Learn(asked, entries) =>
      AbsorbedFacts(before.book, asked, entries);
      TookInGenuine(s, before.book, after.book, asked, UsedTexts(entries));
  }

  lemma RefreshKeepsReady(e: Setup, s: Scheme, view: View, before: Wallet, after: Wallet)
    requires Ready(e, s, before) && Refreshes(s, view, before, after)
    requires
      Gathered(OwnerIn(before.book.addresses, s.text), view).Ok? ==> GoodResponse(s, before.book.addresses, view)
    ensures Ready(e, s, after)
  {
    hide Fits, Genuine, Healthy, AllSound, GoodResponse, Gathered, Kept, NoDup, Agrees, ByOutpoint;
    if Gathered(OwnerIn(before.book.addresses, s.text), view).Ok? {
      RefreshMakesReady(e, s, view, before, after);
    }
  }

  /** The wallet after each step of a run. */
  ghost predicate Run(e: Setup, s: Scheme, steps: seq<Step>, ws: seq<Wallet>) {
    && |ws| == |steps| + 1
    && forall i :: 0 <= i < |steps| ==> Follows(e, s, steps[i], ws[i], ws[i + 1]) && Tame(e, s, steps[i], ws[i])
  }

  /** A ready wallet stays ready over every sequence of sends, refreshes and new addresses, and
      nothing but the node's refusals stops any of its batches. */
  lemma {:induction false} RunKeepsReady(e: Setup, s: Scheme, steps: seq<Step>, ws: seq<Wallet>, i: nat)
    requires Run(e, s, steps, ws) && Ready(e, s, ws[0]) && i <= |steps|
    ensures Ready(e, s, ws[i]) && forall j :: 0 <= j < i ==> OnlyRefused(e, steps[j])
  {
    hide Follows, Tame, Ready, OnlyRefused;
    if i > 0 {
      RunKeepsReady(e, s, steps, ws, i - 1);
      StepKeepsReady(e, s, steps[i - 1], ws[i - 1], ws[i]);
    }
  }

  /** A daemon that starts without coins is ready. */
  lemma StartsReady(e: Setup, s: Scheme, external: U32, internal: U32)
    requires Fits(e, s)
    ensures Ready(e, s, Wallet(Book(map[], external, internal), [], map[], []))
  {
    assert Outpoints([]) == [];
  }
}
