/** Serving a send request (daemon/src/service/send.rs, create_unsigned_transactions of
    daemon/src/transaction_generator.rs). Address parsing and the fee policy come before this. */
module Send {
  import opened Wrappers
  import opened Sequences
  import opened Model
  import opened AddressBook
  import opened Mass
  import opened Generate
  import opened Selection
  import opened Compounding
  import opened Compounder
  import opened BatchTheorems
  import opened Completion
  import opened CompoundingTheorems
  import opened FewSpare
  import opened PaidAhead
  import opened Termination
  import opened Ledger
  import opened SplitRun
  import opened UtxoIndex
  import opened MempoolReplay
  import opened UtxoManager
  import opened SyncManager
  import opened Handlers
  import opened Sign
  import opened SigningTheorems
  import opened Submit
  import opened EndToEnd

  /** A request as it arrives: senders by address text, chosen coins by outpoint. */
  datatype Description = Description(
    to: Address, amount: U64, isSendAll: bool, payload: seq<Byte>, from: seq<string>, utxos: seq<Coin>,
    useExistingChange: bool, rate: real, maxFee: U64)

  /** A daemon: its signer and keys, the generator's parameters, the lane it serves. */
  datatype Setup = Setup(g: Signer, keys: seq<Key>, p: Params, lane: seq<Byte>)

  /** A request, and what the node says while it is served: its scores and its replies. */
  datatype Call = Call(d: Description, replies: Replies, score: nat, scores: nat -> nat, fuel: nat)

  /** What the daemon holds. */
  datatype Wallet = Wallet(book: Book, index: seq<Utxo>, coins: Coins, mempool: seq<Transfer>)

  ghost function StateOf(u: UtxoManager): Wallet
    reads u, u.addressManager, u.addressManager.keys
  {
    Wallet(u.addressManager.Contents(), u.utxosSortedByAmount, u.utxosByOutpoint, u.mempoolTransactions)
  }

  /* ----- resolving the request ----- */

  method Senders(u: UtxoManager, texts: seq<string>) returns (r: Result<seq<WalletAddress>>)
    ensures r.Ok? <==> forall t :: t in texts ==> t in u.addressManager.addresses
    ensures r.Ok? ==> r.value == SendersOf(u.addressManager.addresses, texts)
    ensures r.Err? ==> r.error == InvalidAddress
  {
    var found: seq<WalletAddress> := [];
    for i := 0 to |texts|
      invariant |found| == i
      invariant forall j :: 0 <= j < i ==>
        texts[j] in u.addressManager.addresses && found[j] == u.addressManager.addresses[texts[j]]
    {
      if texts[i] !in u.addressManager.addresses {
        assert texts[i] in texts;
        return Err(InvalidAddress);
      }
      found := found + [u.addressManager.addresses[texts[i]]];
    }
    r := Ok(found);
  }

  /** The chosen coins of the index, each once, in some order. */
  ghost predicate Chosen(us: seq<Utxo>, outpoints: seq<Coin>, index: seq<Utxo>) {
    && (forall x :: x in us ==> x in index)
    && NoDup(Outpoints(us)) && (forall c :: c in Outpoints(us) <==> c in outpoints)
  }

  /** The chosen coins in whatever order a hash map yields them. */
  method Preselected(u: UtxoManager, outpoints: seq<Coin>) returns (r: Result<seq<Utxo>>)
    requires u.Valid()
    ensures r.Ok? <==> forall c :: c in outpoints ==> c in u.utxosByOutpoint
    ensures r.Ok? ==> Chosen(r.value, outpoints, u.utxosSortedByAmount)
    ensures r.Err? ==> r.error == UtxoNotFound
  {
    hide UtxoManager.Indexed, NoDup, Ascending, Outpoints, AllReplayable;
    var chosen: set<Coin> := {};
    for i := 0 to |outpoints|
      invariant chosen == set c | c in outpoints[..i]
      invariant forall c :: c in chosen ==> c in u.utxosByOutpoint
    {
      if outpoints[i] !in u.utxosByOutpoint {
        assert outpoints[i] in outpoints;
        return Err(UtxoNotFound);
      }
      assert outpoints[..i + 1] == outpoints[..i] + [outpoints[i]];
      chosen := chosen + {outpoints[i]};
    }
    assert outpoints[..|outpoints|] == outpoints;
    var us: seq<Utxo>, left := [], chosen;
    NothingTaken();
    while left != {}
      invariant left <= chosen && NoDup(Outpoints(us))
      invariant forall c :: c in Outpoints(us) <==> c in chosen && c !in left
      invariant forall x :: x in us ==> x in u.utxosSortedByAmount
      decreases |left|
    {
      var c :| c in left;
      var x := u.utxosByOutpoint[c];
      assert x.outpoint == c && x in u.utxosSortedByAmount;
      OneMoreTaken(us, x);
      us := us + [x];
      left := left - {c};
    }
    r := Ok(us);
  }

  lemma NothingTaken()
    ensures NoDup(Outpoints([])) && forall c :: c !in Outpoints([])
  {
  }

  lemma OneMoreTaken(us: seq<Utxo>, x: Utxo)
    ensures forall c :: c in Outpoints(us + [x]) <==> c in Outpoints(us) || c == x.outpoint
    ensures NoDup(Outpoints(us + [x])) <==> NoDup(Outpoints(us)) && x.outpoint !in Outpoints(us)
  {
    assert Outpoints(us + [x]) == Outpoints(us) + [x.outpoint];
    NoDupLast(Outpoints(us), x.outpoint);
  }

  /* ----- creating the transactions ----- */

  lemma OriginalIsAligned(p: Params, r: Request, selected: Selected)
    requires Original(p, r, selected).Ok?
    ensures Aligned(Original(p, r, selected).value)
  {
    hide Generated;
    GeneratedShape(p, OriginalPayments(r, selected), selected.utxos, r.payload);
  }

  /** What select, build and compound make of a request. */
  ghost function BatchFor(p: Params, r: Request, index: seq<Utxo>, score: nat, fuel: nat, scores: nat -> nat)
    : Result<seq<Transfer>>
  {
    var selected :- Select(p, r, index, score);
    var w :- Original(p, r, selected);
    assert Aligned(w) by { OriginalIsAligned(p, r, selected); }
    Compound(fuel, Context(p, r, index, selected.utxos), scores, 0, w)
  }

  /** The coins that the merges of the request added. */
  ghost function AddedFor(p: Params, r: Request, index: seq<Utxo>, score: nat, fuel: nat, scores: nat -> nat)
    : seq<Utxo>
  {
    match Select(p, r, index, score)
    case Err(_) => []
    case Ok(selected) =>
      match Original(p, r, selected)
      case Err(_) => []
      case Ok(w) =>
        assert Aligned(w) by { OriginalIsAligned(p, r, selected); }
        AllExtras(fuel, Context(p, r, index, selected.utxos), scores, 0, w)
  }

  /** Why a request is turned down before anything is built. */
  function Refusal(book: AddressSet, m: Coins, d: Description): (e: Option<WalletError>)
    ensures e.None? ==> (forall t :: t in d.from ==> t in book) && forall c :: c in d.utxos ==> c in m
  {
    if d.from != [] && d.utxos != [] then Some(BuildFailed)
    else if exists t :: t in d.from && t !in book then Some(InvalidAddress)
    else if exists c :: c in d.utxos && c !in m then Some(UtxoNotFound)
    else None
  }

  /** The request with everything looked up. */
  function RequestFor(d: Description, senders: seq<WalletAddress>, chosen: seq<Utxo>, change: Address,
                      changeWallet: WalletAddress): Request
  {
    Request(d.to, d.amount, d.isSendAll, d.payload, senders, chosen, change, changeWallet, d.rate, d.maxFee)
  }

  /** What comes of creating transactions: the refusal, the failure to make a change address, or
      whatever select, build and compound yield. The chosen coins come in some order. */
  ghost predicate Creates(s: Scheme, p: Params, x: Call, before: Wallet, after: Book, r: Request,
                          created: Result<seq<Transfer>>) {
    match Refusal(before.book.addresses, before.coins, x.d)
    case Some(e) => created == Err(e) && after == before.book
    case None =>
      var senders := SendersOf(before.book.addresses, x.d.from);
      var (book, change) := ChangeFor(s, before.book, x.d.useExistingChange, senders);
      && after == book
      && match change
         case Err(e) => created == Err(e)
         case Ok((address, changeWallet)) =>
           && r == RequestFor(x.d, senders, r.preselected, address, changeWallet)
           && Chosen(r.preselected, x.d.utxos, before.index)
           && created == BatchFor(p, r, before.index, x.score, x.fuel, x.scores)
  }

  /** Registers the change address; the index is as valid as it was. */
  method ChangeForRequest(u: UtxoManager, useExisting: bool, from: seq<WalletAddress>)
    returns (r: Result<(Address, WalletAddress)>)
    requires u.Valid()
    modifies u.addressManager, u.addressManager.keys
    ensures u.Valid()
    ensures (u.addressManager.Contents(), r)
      == ChangeFor(u.addressManager.scheme, old(u.addressManager.Contents()), useExisting, from)
  {
    hide Agrees, Lists, OneOf, Genuine, CacheIsDerived, Derived;
    ghost var before := u.addressManager.addresses;
    r := u.addressManager.ChangeAddress(useExisting, from);
    RegisteredStays(u.addressManager.scheme, before.Keys, u.addressManager.addresses.Keys, u.utxosByOutpoint);
  }

  /** Select, build, compound. */
  method BuildBatch(p: Params, r: Request, index: seq<Utxo>, score: nat, scores: nat -> nat, fuel: nat)
    returns (result: Result<seq<Transfer>>)
    ensures result == BatchFor(p, r, index, score, fuel, scores)
  {
    hide Select, Generated, Compound, Uniform, Aligned;
    var selected := SelectUtxos(p, r, index, score);
    if selected.Err? {
      return Err(selected.error);
    }
    var payments := [Payment(r.to, selected.value.received)];
    if selected.value.change > 0 {
      payments := payments + [Payment(r.change, selected.value.change)];
    }
    assert payments == OriginalPayments(r, selected.value);
    var unsigned := GenerateUnsignedTransaction(p, payments, selected.value.utxos, r.payload);
    if unsigned.Err? {
      return Err(unsigned.error);
    }
    OriginalIsAligned(p, r, selected.value);
    result := MaybeAutoCompound(fuel, Context(p, r, index, selected.value.utxos), scores, 0, unsigned.value);
  }

  method CreateUnsignedTransactions(u: UtxoManager, p: Params, x: Call)
    returns (result: Result<seq<Transfer>>, ghost r: Request)
    requires u.Valid()
    modifies u.addressManager, u.addressManager.keys
    ensures u.Valid()
    ensures Creates(u.addressManager.scheme, p, x, old(StateOf(u)), u.addressManager.Contents(), r, result)
  {
    hide UtxoManager.Valid, ChangeFor, BatchFor, Chosen;
    var d := x.d;
    r := RequestFor(d, [], [], d.to, WalletAddress(0, 0, Internal));
    if d.from != [] && d.utxos != [] {
      return Err(BuildFailed), r;
    }
    var from := Senders(u, d.from);
    if from.Err? {
      return Err(from.error), r;
    }
    var preselected := Preselected(u, d.utxos);
    if preselected.Err? {
      return Err(preselected.error), r;
    }
    var change := ChangeForRequest(u, d.useExistingChange, from.value);
    if change.Err? {
      return Err(change.error), r;
    }
    var request := RequestFor(d, from.value, preselected.value, change.value.0, change.value.1);
    r := request;
    result := BuildBatch(p, request, u.utxosSortedByAmount, x.score, x.scores, x.fuel);
  }

  /** create_unsigned_transactions_from_description: the check comes first. */
  ghost predicate CreatesIf(synced: bool, s: Scheme, p: Params, x: Call, before: Wallet, after: Book, r: Request,
                            created: Result<seq<Transfer>>) {
    if synced then Creates(s, p, x, before, after, r, created)
    else created == Err(NotYetSynced) && after == before.book
  }

  method CreateFromDescription(m: SyncManager, u: UtxoManager, p: Params, x: Call)
    returns (result: Result<seq<Transfer>>, ghost r: Request)
    requires u.Valid() && m.addressManager == u.addressManager
    modifies u.addressManager, u.addressManager.keys
    ensures u.Valid()
    ensures CreatesIf(old(m.IsSynced()), u.addressManager.scheme, p, x, old(StateOf(u)), u.addressManager.Contents(), r,
                      result)
  {
    hide UtxoManager.Valid, Creates;
    r := RequestFor(x.d, [], [], x.d.to, WalletAddress(0, 0, Internal));
    var synced := CheckIsSynced(m);
    if synced.Fail? {
      return Err(synced.error), r;
    }
    result, r := CreateUnsignedTransactions(u, p, x);
  }

  lemma RegisteredStays(s: Scheme, texts: set<string>, more: set<string>, m: Coins)
    requires Registered(s, texts, m) && texts <= more
    ensures Registered(s, more, m)
  {
  }

  /** The request asks for what the description says, draws on the index, and gets its change back. */
  ghost predicate Resolves(d: Description, r: Request, s: Scheme, index: seq<Utxo>, owner: Owner) {
    && r.to == d.to && r.amount == d.amount && r.isSendAll == d.isSendAll && r.payload == d.payload
    && r.rate == d.rate && r.maxFee == d.maxFee && (d.utxos != [] ==> r.preselected != [])
    && DrawsOnIndex(r, index) && ChangeIsOurs(s, r) && owner(r.change).Some?
  }

  /** Which requests are turned down at once, and why: one that names both senders and coins, else one that
      names a sender the wallet does not know, else one that names a coin it does not hold. */
  lemma RefusedIff(book: AddressSet, m: Coins, d: Description)
    ensures
      var both := d.from != [] && d.utxos != [];
      var stranger := exists i :: 0 <= i < |d.from| && d.from[i] !in book;
      var missing := exists i :: 0 <= i < |d.utxos| && d.utxos[i] !in m;
      Refusal(book, m, d) ==
        if both then Some(BuildFailed) else if stranger then Some(InvalidAddress)
        else if missing then Some(UtxoNotFound) else None
  {
    if i :| 0 <= i < |d.from| && d.from[i] !in book {
      assert d.from[i] in d.from;
    }
    if i :| 0 <= i < |d.utxos| && d.utxos[i] !in m {
      assert d.utxos[i] in d.utxos;
    }
  }

  /** A request that is looked up draws on the senders it names. */
  lemma CreatedIsFrom(s: Scheme, p: Params, x: Call, before: Wallet, after: Book, r: Request, batch: seq<Transfer>)
    requires Creates(s, p, x, before, after, r, Ok(batch))
    ensures |r.from| == |x.d.from| && forall i :: 0 <= i < |r.from| ==>
      x.d.from[i] in before.book.addresses && r.from[i] == before.book.addresses[x.d.from[i]]
    ensures (forall u :: u in r.preselected ==> u in before.index)
    ensures (forall c :: c in x.d.utxos <==> c in Outpoints(r.preselected))
    ensures x.d.from == [] || x.d.utxos == []
  {
    hide BatchFor, NoDup, Derived, Outpoints;
    forall i | 0 <= i < |x.d.from| ensures x.d.from[i] in before.book.addresses {
      assert x.d.from[i] in x.d.from;
    }
  }

  lemma CreatedResolves(s: Scheme, p: Params, x: Call, before: Wallet, after: Book, r: Request, batch: seq<Transfer>)
    requires Creates(s, p, x, before, after, r, Ok(batch))
    ensures Resolves(x.d, r, s, before.index, OwnerIn(after.addresses, s.text))
    ensures BatchFor(p, r, before.index, x.score, x.fuel, x.scores) == Ok(batch)
  {
    hide BatchFor, NoDup, Derived, Outpoints;
    if x.d.utxos != [] {
      assert x.d.utxos[0] in Outpoints(r.preselected);
      NothingIsChosen(r.preselected, x.d.utxos[0]);
    }
  }

  lemma NothingIsChosen(us: seq<Utxo>, c: Coin)
    requires c in Outpoints(us)
    ensures us != []
  {
  }

  lemma CreatedIsGenuine(s: Scheme, p: Params, x: Call, before: Wallet, after: Book, r: Request,
                         created: Result<seq<Transfer>>)
    requires Creates(s, p, x, before, after, r, created) && Genuine(s, before.book.addresses)
    ensures Genuine(s, after.addresses)
  {
    hide BatchFor, Genuine, Chosen;
  }

  /* ----- the whole request ----- */

  /** A daemon with one key, whose transaction parameters, lane and addresses are its own. */
  ghost predicate Fits(e: Setup, s: Scheme) {
    && SingleKey(e.g, s, e.keys) && TextTellsAddresses(s)
    && e.p.Valid() && e.p.isMultisig == s.IsMultisig() && e.p.subnetworkId == e.lane
  }

  /** What every transaction on the mempool list is: it was applied once, spends something, and pays
      the payees it names. */
  ghost predicate AllSound(ws: seq<Transfer>) {
    forall w :: w in ws ==> Replayable(w) && Ledger.WellFormed(w) && PaysPayees(w)
  }

  /** What makes a send safe: a healthy wallet, genuine addresses, a sound mempool list. */
  ghost predicate Ready(e: Setup, s: Scheme, w: Wallet) {
    && Fits(e, s) && Genuine(s, w.book.addresses) && Healthy(s, w.index, w.coins) && AllSound(w.mempool)
  }

  /** The signed batch, or why there is none. */
  ghost function SignedBatch(e: Setup, created: Result<seq<Transfer>>): Result<seq<Transfer>> {
    match created
    case Err(error) => Err(error)
    case Ok(batch) => AllSigned(e.g, e.keys, batch)
  }

  /** What one request went through: whether the wallet was in sync, how the request was resolved, what
      was created for it, and how many of its transactions the node accepted. */
  datatype Trace = Trace(synced: bool, r: Request, created: Result<seq<Transfer>>, accepted: nat)

  /** Serving a request: a refusal while the wallet is not in sync; the first failure to create or to
      sign, with nothing changed but the registered addresses; or a submission that goes on until an
      obstacle stops it. */
  ghost predicate Served(e: Setup, s: Scheme, x: Call, before: Wallet, after: Wallet, t: Trace,
                         result: Result<seq<TxId>>) {
    && CreatesIf(t.synced, s, e.p, x, before, after.book, t.r, t.created)
    && match SignedBatch(e, t.created)
       case Err(error) => result == Err(error) && after == before.(book := after.book)
       case Ok(signed) =>
         var owner := OwnerIn(after.book.addresses, s.text);
         && Stopped(before.coins, e.lane, x.replies, signed, owner, t.accepted, result)
         && (result != Err(MissingElement) ==>
               && Replay(before.coins, signed[..t.accepted], owner) == Some(after.coins)
               && after.mempool == before.mempool + signed[..t.accepted]
               && (Agrees(before.index, before.coins) && Clean(before.coins, signed) ==>
                     Agrees(after.index, after.coins)))
  }

  /** The request asks for something, and no two of its merges added the same coin. */
  ghost predicate Harmless(e: Setup, x: Call, index: seq<Utxo>, r: Request) {
    && (x.d.isSendAll || x.d.amount > 0)
    && NoDup(Outpoints(AddedFor(e.p, r, index, x.score, x.fuel, x.scores)))
  }

  /** Create, sign and submit. Whatever happens is exactly what `Served` says; in a ready wallet it
      is safe, as `ServedIsSafe` shows, and the index stays valid. */
  method Send(m: SyncManager, u: UtxoManager, e: Setup, x: Call)
    returns (result: Result<seq<TxId>>, ghost t: Trace)
    requires u.Valid() && m.addressManager == u.addressManager
    modifies u, u.addressManager, u.addressManager.keys
    ensures t.synced == old(m.IsSynced())
    ensures Served(e, u.addressManager.scheme, x, old(StateOf(u)), StateOf(u), t, result)
    ensures result != Err(MissingElement) ==> u.Usable()
    ensures SignedBatch(e, t.created).Err? ==> u.Valid()
    ensures old(Ready(e, u.addressManager.scheme, StateOf(u))) && Harmless(e, x, old(u.utxosSortedByAmount), t.r) ==>
      u.Valid()
  {
    hide UtxoManager.Valid, UtxoManager.Usable, CreatesIf, AllSigned, Ready, Clean, Harmless, Stopped, Replay, Agrees;
    ghost var s, before, synced := u.addressManager.scheme, StateOf(u), m.IsSynced();
    var unsigned;
    ghost var r;
    unsigned, r := CreateFromDescription(m, u, e.p, x);
    t := Trace(synced, r, unsigned, 0);
    ValidIsUsable(u);
    if unsigned.Err? {
      return Err(unsigned.error), t;
    }
    var transactions := SignTransactions(e.g, e.keys, unsigned.value);
    if transactions.Err? {
      return Err(transactions.error), t;
    }
    ghost var book := u.addressManager.Contents();
    if Ready(e, s, before) && Harmless(e, x, before.index, r) {
      CreatedInSync(synced, s, e.p, x, before, book, r, unsigned);
      SignedIsClean(e, s, x, before, book, r, unsigned, transactions.value);
    }
    ghost var accepted;
    result, accepted := SubmitTransactions(u, e.lane, transactions.value, x.replies);
    t := Trace(synced, r, unsigned, accepted);
    if u.Valid() {
      ValidIsUsable(u);
    }
    if result == Err(MissingElement) && Ready(e, s, before) && Harmless(e, x, before.index, r) {
      NotAnObstacle(before.coins, e.lane, x.replies, transactions.value, OwnerIn(book.addresses, s.text), accepted,
                    result);
    }
  }

  lemma CreatedInSync(synced: bool, s: Scheme, p: Params, x: Call, before: Wallet, after: Book, r: Request,
                      created: Result<seq<Transfer>>)
    requires CreatesIf(synced, s, p, x, before, after, r, created) && created.Ok?
    ensures synced && Creates(s, p, x, before, after, r, created)
  {
  }

  lemma ValidIsUsable(u: UtxoManager)
    requires u.Valid()
    ensures u.Usable() && Agrees(u.utxosSortedByAmount, u.utxosByOutpoint)
  {
  }

  /** A batch made for a ready wallet runs, signed, over its coins, and can meet only refusals. */
  lemma SignedIsClean(e: Setup, s: Scheme, x: Call, before: Wallet, after: Book, r: Request,
                      created: Result<seq<Transfer>>, signed: seq<Transfer>)
    requires Ready(e, s, before) && Harmless(e, x, before.index, r)
    requires Creates(s, e.p, x, before, after, r, created) && SignedBatch(e, created) == Ok(signed)
    ensures
      var owner := OwnerIn(after.addresses, s.text);
      && Clean(before.coins, signed) && GoodRun(before.coins, signed, owner)
      && OnlyRefusals(before.coins, e.lane, x.replies, signed, owner)
      && forall v :: v in signed ==> PaysPayees(v)
  {
    hide Creates, BatchFor, AddedFor, SingleKey, TextTellsAddresses, Genuine, Healthy, AllSound, NoDup, Clean, GoodRun,
      OnlyRefusals, PaysPayees, AllSigned, Resolves;
    CreatedResolves(s, e.p, x, before, after, r, created.value);
    BatchForIsSafe(e, s, x, before, r, OwnerIn(after.addresses, s.text), created.value);
  }

  lemma BatchForIsSafe(e: Setup, s: Scheme, x: Call, before: Wallet, r: Request, owner: Owner, batch: seq<Transfer>)
    requires Ready(e, s, before) && Harmless(e, x, before.index, r)
    requires Resolves(x.d, r, s, before.index, owner)
    requires BatchFor(e.p, r, before.index, x.score, x.fuel, x.scores) == Ok(batch)
    requires AllSigned(e.g, e.keys, batch).Ok?
    ensures
      var m, signed := before.coins, AllSigned(e.g, e.keys, batch).value;
      && Clean(m, signed) && GoodRun(m, signed, owner) && OnlyRefusals(m, e.lane, x.replies, signed, owner)
      && forall v :: v in signed ==> PaysPayees(v)
  {
    hide Select, Original, Agrees, Compound, AllExtras, SingleKey, TextTellsAddresses, OwnCoins, Unspent, AllSigned,
      GoodForRequest, NoDup, DrawsOnIndex, ChangeIsOurs, Clean, GoodRun, OnlyRefusals, Aligned, PaysPayees, AllSound,
      Genuine;
    var index, m := before.index, before.coins;
    var selected := Select(e.p, r, index, x.score).value;
    var c, w := Context(e.p, r, index, selected.utxos), Original(e.p, r, selected).value;
    OriginalIsAligned(e.p, r, selected);
    SelectsSomething(e.p, r, index, x.score);
    RequestMakesGoodBatch(s, e.p, r, index, x.score, m, owner, x.fuel, x.scores, batch);
    SignedBatchIsSubmittable(e.g, s, e.keys, c, w, m, AllExtras(x.fuel, c, x.scores, 0, w), batch, owner, e.lane,
                             x.replies);
  }

  /** Where only refusals can stop a submission, it is refusals that do. */
  lemma NotAnObstacle(m: Coins, lane: seq<Byte>, replies: Replies, signed: seq<Transfer>, owner: Owner, accepted: nat,
                      result: Result<seq<TxId>>)
    requires OnlyRefusals(m, lane, replies, signed, owner)
    requires Stopped(m, lane, replies, signed, owner, accepted, result)
    ensures result.Ok? <==> forall i :: 0 <= i < |signed| ==> replies(i).Some?
    ensures result.Err? ==> result == Err(Rejected) && accepted < |signed| && replies(accepted).None?
  {
    hide CanApply, Replay, WentThrough, LaneMatches;
  }

  /** In a ready wallet a signed batch goes through exactly when the node refuses none of it, and
      stops at the first refusal otherwise; wherever it stops the wallet is ready again, and poorer
      by exactly the fees of the accepted transactions and what they paid to others. */
  lemma ServedIsSafe(e: Setup, s: Scheme, x: Call, before: Wallet, after: Wallet, t: Trace, result: Result<seq<TxId>>)
    requires Served(e, s, x, before, after, t, result) && Ready(e, s, before)
    requires SignedBatch(e, t.created).Ok? && Harmless(e, x, before.index, t.r)
    ensures
      var signed, owner := SignedBatch(e, t.created).value, OwnerIn(after.book.addresses, s.text);
      && t.accepted <= |signed|
      && (result.Ok? <==> forall i :: 0 <= i < |signed| ==> x.replies(i).Some?)
      && (result.Err? ==> result == Err(Rejected) && t.accepted < |signed| && x.replies(t.accepted).None?)
      && Ready(e, s, after) && after.mempool == before.mempool + signed[..t.accepted]
      && AllWellFormed(signed[..t.accepted])
      && Worth(before.coins) == Worth(after.coins) + TotalFees(signed[..t.accepted])
                                + TotalExternal(signed[..t.accepted], owner)
  {
    SignedIsCreated(e, t.created);
    hide Creates, CreatesIf, SignedBatch, Harmless, Ready, Agrees, Clean, GoodRun, OnlyRefusals, Replay, PaysPayees,
      Stopped, OwnerIn, TotalFees, TotalExternal, Genuine;
    var signed := SignedBatch(e, t.created).value;
    CreatedInSync(t.synced, s, e.p, x, before, after.book, t.r, t.created);
    SignedIsClean(e, s, x, before, after.book, t.r, t.created, signed);
    ReadyIsGenuine(e, s, before);
    CreatedIsGenuine(s, e.p, x, before, after.book, t.r, t.created);
    SubmittedIsSafe(e, s, x.replies, before, after, signed, t.accepted, result);
  }

  lemma ReadyIsGenuine(e: Setup, s: Scheme, w: Wallet)
    requires Ready(e, s, w)
    ensures Genuine(s, w.book.addresses)
  {
  }

  lemma SubmittedIsSafe(e: Setup, s: Scheme, replies: Replies, before: Wallet, after: Wallet, signed: seq<Transfer>,
                        accepted: nat, result: Result<seq<TxId>>)
    requires Ready(e, s, before) && Genuine(s, after.book.addresses)
    requires
      var owner := OwnerIn(after.book.addresses, s.text);
      && Clean(before.coins, signed) && GoodRun(before.coins, signed, owner)
      && OnlyRefusals(before.coins, e.lane, replies, signed, owner) && (forall v :: v in signed ==> PaysPayees(v))
      && Stopped(before.coins, e.lane, replies, signed, owner, accepted, result)
      && (result != Err(MissingElement) ==>
            && Replay(before.coins, signed[..accepted], owner) == Some(after.coins)
            && after.mempool == before.mempool + signed[..accepted]
            && (Agrees(before.index, before.coins) && Clean(before.coins, signed) ==> Agrees(after.index, after.coins)))
    ensures
      var owner := OwnerIn(after.book.addresses, s.text);
      && accepted <= |signed|
      && (result.Ok? <==> forall i :: 0 <= i < |signed| ==> replies(i).Some?)
      && (result.Err? ==> result == Err(Rejected) && accepted < |signed| && replies(accepted).None?)
      && Ready(e, s, after) && after.mempool == before.mempool + signed[..accepted]
      && AllWellFormed(signed[..accepted])
      && Worth(before.coins) == Worth(after.coins) + TotalFees(signed[..accepted])
                                + TotalExternal(signed[..accepted], owner)
  {
    hide SingleKey, TextTellsAddresses, Genuine, Agrees, Unspent, OwnCoins, GoodRun, OnlyRefusals, Replay, PaysPayees,
      Obstacle, WentThrough, Replayable, Ledger.WellFormed, OwnerIn;
    var owner := OwnerIn(after.book.addresses, s.text);
    NotAnObstacle(before.coins, e.lane, replies, signed, owner, accepted, result);
    ReplayKeepsUnspent(before.coins, signed[..accepted], owner);
    HealthyAfter(s, after.book.addresses, before.coins, signed, accepted, after.index);
    AcceptedIsSound(before.coins, signed, owner, accepted);
  }

  lemma SignedIsCreated(e: Setup, created: Result<seq<Transfer>>)
    requires SignedBatch(e, created).Ok?
    ensures created.Ok?
  {
  }

  lemma AcceptedIsSound(m: Coins, signed: seq<Transfer>, owner: Owner, k: nat)
    requires k <= |signed| && Replay(m, signed[..k], owner).Some? && AllWellFormed(signed)
    requires forall v :: v in signed ==> PaysPayees(v)
    ensures AllSound(signed[..k])
  {
    hide Replay, CanApply, PaysPayees, Ledger.WellFormed;
    var went := signed[..k];
    forall w | w in went ensures Replayable(w) && Ledger.WellFormed(w) && PaysPayees(w) {
      var i :| 0 <= i < |went| && went[i] == w;
      ReplayPrefix(m, went, i, owner);
      AppliedIsReplayable(Replay(m, went[..i], owner).value, w);
      assert w == signed[i] && w in signed;
    }
  }

  lemma AppliedIsReplayable(m: Coins, w: Transfer)
    requires CanApply(m, w)
    ensures Replayable(w)
  {
  }

  /** Where nothing could be created or signed, the wallet is as ready as it was. */
  lemma NotServedIsSafe(e: Setup, s: Scheme, x: Call, before: Wallet, after: Wallet, t: Trace,
                        result: Result<seq<TxId>>)
    requires Served(e, s, x, before, after, t, result) && Ready(e, s, before) && SignedBatch(e, t.created).Err?
    ensures Ready(e, s, after) && after == before.(book := after.book) && result.Err?
  {
    hide Creates, SignedBatch, Fits, Genuine, Healthy, AllSound;
    if t.synced {
      CreatedIsGenuine(s, e.p, x, before, after.book, t.r, t.created);
    }
  }

  /* ----- when nothing need be supposed about added coins ----- */

  /** A send-all, and a request with chosen coins, never adds a coin. */
  lemma NothingAdded(s: Scheme, p: Params, x: Call, before: Wallet, after: Book, r: Request, batch: seq<Transfer>)
    requires Creates(s, p, x, before, after, r, Ok(batch)) && p.Valid() && (x.d.isSendAll || x.d.utxos != [])
    ensures AddedFor(p, r, before.index, x.score, x.fuel, x.scores) == []
  {
    hide Select, Compound, AllExtras, Generated, Uniform, Aligned, Creates, Resolves;
    CreatedResolves(s, p, x, before, after, r, batch);
    AsksTheSame(x.d, r, s, before.index, OwnerIn(after.addresses, s.text));
    assert r.isSendAll || r.preselected != [];
    var selected := Select(p, r, before.index, x.score).value;
    var c, w := Context(p, r, before.index, selected.utxos), Original(p, r, selected).value;
    GeneratedShape(p, OriginalPayments(r, selected), selected.utxos, r.payload);
    OriginalIsAligned(p, r, selected);
    SendAllEnds(c, x.scores, 0, w);
    NoneAdded(x.fuel, c, x.scores, 0, w);
  }

  lemma AsksTheSame(d: Description, r: Request, s: Scheme, index: seq<Utxo>, owner: Owner)
    requires Resolves(d, r, s, index, owner)
    ensures r.isSendAll == d.isSendAll && r.to == d.to && r.payload == d.payload
    ensures d.utxos != [] ==> r.preselected != []
  {
  }

  /** What the wallet can add to this request fits into its first merge: the inputs of the original,
      the spare coins and the payload leave that merge light. */
  ghost predicate FewToAdd(p: Params, r: Request, index: seq<Utxo>, score: nat) {
    && p.Valid() && RealPayees(r) && NoDup(Outpoints(index))
    && (Select(p, r, index, score).Ok? ==>
          var us := Select(p, r, index, score).value.utxos;
          MergeIsLight(Context(p, r, index, us), |us|, |r.payload|))
  }

  /** Then a request for a fixed amount adds no coin twice either. */
  lemma AddsOnceWhenFew(p: Params, x: Call, r: Request, index: seq<Utxo>)
    requires FewToAdd(p, r, index, x.score) && BatchFor(p, r, index, x.score, x.fuel, x.scores).Ok?
    ensures NoDup(Outpoints(AddedFor(p, r, index, x.score, x.fuel, x.scores)))
  {
    hide Select, Compound, AllExtras, Generated, NoDup, Outpoints, MergeIsLight, WithinWorst, Halts;
    var selected := Select(p, r, index, x.score).value;
    var c, w := Context(p, r, index, selected.utxos), Original(p, r, selected).value;
    OriginalIsAligned(p, r, selected);
    OriginalWithinWorst(p, r, selected);
    OneLevelIsEnough(x.fuel, c, x.scores, 0, w);
  }

  /** The coins selected are worth what is owed and all that compounding can cost: the change, and the
      fees the original sets aside, pay for it. */
  ghost predicate PaysAhead(p: Params, r: Request, index: seq<Utxo>, score: nat) {
    && p.Valid() && RealPayees(r) && r.rate >= 0.0 && Compounds(p, r.change, |r.payload|)
    && (Select(p, r, index, score).Ok? ==>
          var us := Select(p, r, index, score).value.utxos;
          SumOf(Amount, us) >= Owed(r) + FeesToCome(p, r, |us|, |r.payload|))
  }

  /** Then no coin is added at all, however many the wallet has to spare. */
  lemma AddsNothingWhenPaidAhead(p: Params, x: Call, r: Request, index: seq<Utxo>)
    requires PaysAhead(p, r, index, x.score)
    ensures AddedFor(p, r, index, x.score, x.fuel, x.scores) == []
  {
    hide Select, AllExtras, Original, FeesToCome, PaidFor, Halts, NoExtras, Compounds, SumOf;
    var selection := Select(p, r, index, x.score);
    if selection.Ok? && Original(p, r, selection.value).Ok? {
      var c, w := Context(p, r, index, selection.value.utxos), Original(p, r, selection.value).value;
      OriginalIsAligned(p, r, selection.value);
      ChangePaysAhead(c, selection.value);
      AddsNothingWhenPaid(c, x.scores, 0, w);
      NoneAdded(x.fuel, c, x.scores, 0, w);
    }
  }

  /* ----- when a request succeeds ----- */

  /** A selection that pays ahead, of coins worth splitting off, makes a batch: whatever scores the node
      reports, with enough levels to go down. No coin is added; the recipient, first, gets the amount
      asked, and all that the coins are worth beyond it and the fees comes back as change. */
  lemma RequestCompletes(p: Params, r: Request, index: seq<Utxo>, score: nat, s: Selected, fuel: nat,
                         scores: nat -> nat)
    requires Select(p, r, index, score) == Ok(s) && NoDup(Map(UtxoOutpoint, Available(r, index)))
    requires SelectionProvides(p, r, s) && fuel >= Levels(p, r, |s.utxos|, |r.payload|)
    ensures AddedFor(p, r, index, score, fuel, scores) == []
    ensures BatchFor(p, r, index, score, fuel, scores).Ok?
    ensures
      var batch := BatchFor(p, r, index, score, fuel, scores).value;
      && batch != []
      && var last := batch[|batch| - 1];
      && PaysAsAsked(r, last) && last.Body().payload == r.payload
      && TotalOut(last) == SumOf(Amount, s.utxos) - TotalFees(batch)
  {
    OriginalIsProvided(p, r, index, score, s);
    OriginalIsAligned(p, r, s);
    OriginalPaysAsAsked(p, r, index, score, s);
    BatchUnfolds(p, r, index, score, s, fuel, scores);
    hide *;
    var c, w := Context(p, r, index, s.utxos), Original(p, r, s).value;
    ProvidedIsSolvent(c, w);
    PaysWhenProvided(fuel, c, scores, 0, w);
    AddsNothingWhenPaid(c, scores, 0, w);
    NoneAdded(fuel, c, scores, 0, w);
    LastIsGood(c, w, Compound(fuel, c, scores, 0, w).value);
  }

  lemma BatchUnfolds(p: Params, r: Request, index: seq<Utxo>, score: nat, s: Selected, fuel: nat, scores: nat -> nat)
    requires Select(p, r, index, score) == Ok(s) && Original(p, r, s).Ok? && Aligned(Original(p, r, s).value)
    ensures
      var c, w := Context(p, r, index, s.utxos), Original(p, r, s).value;
      && BatchFor(p, r, index, score, fuel, scores) == Compound(fuel, c, scores, 0, w)
      && AddedFor(p, r, index, score, fuel, scores) == AllExtras(fuel, c, scores, 0, w)
  {
    hide Select, Original, Compound, AllExtras, Aligned;
  }
}
