/** The sync loop and the request handlers interleaved, one critical section or one read of a shared
    value a step: what every run of daemon/src/sync_manager.rs, daemon/src/address_manager.rs and
    the handlers of daemon/src/service keeps. */
module Discovery {
  import opened Arithmetic
  import opened Wrappers
  import opened Sequences
  import opened Model
  import opened AddressBook
  import opened AddressManager
  import opened SyncManager

  /** Where the sync loop stands, with its local variables. */
  datatype SyncLoop =
    | Recent(index: U32, maxUsed: U32)               // at the head of the recent scan's loop
    | RecentAsked(index: U32, asked: AddressSet)     // waiting for the node
    | RecentRead(index: U32)                         // answer taken in, about to read the counters
    | Refreshing
    | Far
    | FarAsked(start: U32, asked: AddressSet)
    | FarRead(start: U32)
    | Dead                                           // the loop ended in an error

  /** A request for a receiving address, or one that sends and needs a change address. */
  datatype Request = ForReceiving | ForChange(useExisting: bool, from: seq<string>)

  /** How far a request has got: the four reads of `is_synced`, each at its own moment, then the
      handler's own critical sections. */
  datatype Stage =
    | Arrived
    | ReadNext(next: U32)
    | ReadExternal(next: U32, external: U32)
    | ReadBoth                                       // the scanned prefix was past both counters
    | Checked                                        // and the first sync was done
    | Resolved(senders: seq<WalletAddress>)          // the senders were registered

  datatype Pending = Pending(request: Request, at: Stage)

  /** The shared state, the requests in flight, and four histories: the indexes the node has answered
      for, the external indexes handed out, the addresses the node has said are used, and the
      addresses the handlers have given out, for receiving or for change. */
  datatype State = State(
    book: Book, next: U32, firstDone: bool, loop: SyncLoop, pending: seq<Pending>,
    answered: set<nat>, handedOut: set<nat>, seen: set<string>, given: set<string>)

  /** A request may also be cancelled wherever it waits. */
  datatype Event =
    | Arrive(request: Request)
    | Advance(i: nat)
    | Cancel(i: nat)
    | Ask(asked: AddressSet)
    | Answer(entries: seq<BalanceEntry>)
    | Proceed
    | Fail

  /** The most requests the model lets be in flight at once. */
  const MOST_IN_FLIGHT: nat := 0x8000_0000

  function Span(start: nat, end: nat): (r: set<nat>)
    ensures forall i :: i in r <==> start <= i < end
  {
    if start >= end then {} else Span(start, end - 1) + {end - 1}
  }

  function Answered(st: State, start: nat, end: nat, asked: AddressSet, entries: seq<BalanceEntry>,
                    loop: SyncLoop): Option<State> {
    match Absorbed(st.book, asked, entries)
    case Err(_) => None
    case Ok(book) => Some(st.(
      book := book, loop := loop, answered := st.answered + Span(start, end), seen := st.seen + UsedTexts(entries)))
  }

  /* ----- one request ----- */

  function Gone(st: State, i: nat): State
    requires i < |st.pending|
  {
    st.(pending := Without(st.pending, i))
  }

  function At(st: State, i: nat, at: Stage): State
    requires i < |st.pending|
  {
    st.(pending := st.pending[i := Pending(st.pending[i].request, at)])
  }

  function GiveReceiving(s: Scheme, st: State): (r: State)
    ensures r == st.(book := r.book, handedOut := r.handedOut, given := r.given)
  {
    var (book, r) := NewReceiving(s, st.book);
    st.(book := book, handedOut := st.handedOut + (if r.Ok? then {r.value.1.index} else {}),
        given := st.given + if r.Ok? then {r.value.0} else {})
  }

  function GiveChange(s: Scheme, st: State, useExisting: bool, senders: seq<WalletAddress>): (r: State)
    ensures r == st.(book := r.book, given := r.given)
  {
    var (book, r) := ChangeFor(s, st.book, useExisting, senders);
    st.(book := book, given := st.given + if r.Ok? then {s.text(r.value.0)} else {})
  }

  /** The next thing a request does: a read of the check, or its own work. One that fails the check
      or names an unregistered sender is refused and gone. */
  function Advanced(s: Scheme, st: State, i: nat): State
    requires i < |st.pending|
  {
    var request := st.pending[i].request;
    match st.pending[i].at
    case Arrived => At(st, i, ReadNext(st.next))
    case ReadNext(next) => At(st, i, ReadExternal(next, st.book.external))
    case ReadExternal(next, external) =>
      if next > Max(external, st.book.internal) then At(st, i, ReadBoth) else Gone(st, i)
    case ReadBoth => if st.firstDone then At(st, i, Checked) else Gone(st, i)
    case Checked =>
      (match request
       case ForReceiving => Gone(GiveReceiving(s, st), i)
       case ForChange(_, from) =>
         if forall t :: t in from ==> t in st.book.addresses
         then At(st, i, Resolved(SendersOf(st.book.addresses, from))) else Gone(st, i))
    case Resolved(senders) =>
      match request
      case ForReceiving => Gone(st, i)
      case ForChange(useExisting, _) => Gone(GiveChange(s, st, useExisting, senders), i)
  }

  /** One step of a run; None where the event cannot happen. The loop may fail at any point. */
  ghost function Step(s: Scheme, st: State, e: Event): Option<State> {
    match e
    case Arrive(request) =>
      if |st.pending| < MOST_IN_FLIGHT then Some(st.(pending := st.pending + [Pending(request, Arrived)])) else None
    case Advance(i) => if i < |st.pending| then Some(Advanced(s, st, i)) else None
    case Cancel(i) => if i < |st.pending| then Some(Gone(st, i)) else None
    case Fail =>
      Some(st.(loop := Dead))
    case Ask(asked) =>
      (match st.loop
       case Recent(index, maxUsed) =>
         if index < maxUsed + 1000 && index + 1000 <= U32_MAX && AsksFor(s, index, index + 1000, asked)
         then Some(st.(loop := RecentAsked(index, asked))) else None
       case Far =>
         if st.next + 100 <= U32_MAX && AsksFor(s, st.next, st.next + 100, asked)
         then Some(st.(loop := FarAsked(st.next, asked))) else None
       case _ => None)
    case Answer(entries) =>
      (match st.loop
       case RecentAsked(index, asked) =>
         if index + 1000 <= U32_MAX then Answered(st, index, index + 1000, asked, entries, RecentRead(index + 1000))
           else None
       case FarAsked(start, asked) =>
         if start + 100 <= U32_MAX then Answered(st, start, start + 100, asked, entries, FarRead(start)) else None
       case _ => None)
    case Proceed =>
      match st.loop
      case Recent(index, maxUsed) =>
        if index >= maxUsed + 1000 then Some(st.(next := Max(st.next, index), loop := Refreshing)) else None
      case RecentRead(index) => Some(st.(loop := Recent(index, LastUsed(st.book))))
      case Refreshing => Some(st.(firstDone := true, loop := Far))
      case FarRead(_) =>
        if st.next + 100 <= U32_MAX then Some(st.(next := st.next + 100, loop := Recent(0, 0))) else None
      case _ => None
  }

  /** A counter that stands at the greatest u32 wraps when it is moved once more. */
  ghost predicate Wraps(st: State, e: Event) {
    && e.Advance? && e.i < |st.pending|
    && var p := st.pending[e.i];
    || (p == Pending(ForReceiving, Checked) && st.book.external == U32_MAX)
    || (p.request.ForChange? && p.at == Resolved([]) && !p.request.useExisting && st.book.internal == U32_MAX)
  }

  /** A daemon that has just read its key file, wherever that file's counters stand. */
  ghost predicate Initial(st: State) {
    && st.book.addresses == map[] && st.next == 0 && !st.firstDone && st.loop == Recent(0, 0) && st.pending == []
    && st.answered == {} && st.handedOut == {} && st.seen == {} && st.given == {}
  }

  /** The counters and the scanned prefix move forward only, unless a counter wraps. */
  lemma StepGrows(s: Scheme, st: State, e: Event)
    requires Step(s, st, e).Some?
    ensures
      var after := Step(s, st, e).value;
      && (Grows(st.book, after.book) <==> !Wraps(st, e))
      && st.next <= after.next && (st.firstDone ==> after.firstDone)
      && st.answered <= after.answered && st.handedOut <= after.handedOut
  {
    hide AsksFor, NewReceiving, ChangeFor, Absorbed;
    if e.Answer? && st.loop.RecentAsked? {
      AbsorbedFacts(st.book, st.loop.asked, e.entries);
    } else if e.Answer? {
      AbsorbedFacts(st.book, st.loop.asked, e.entries);
    }
  }

  /* ----- no counter ever wraps ----- */

  /** The request has read an external index below the scanned prefix. */
  function PastExternal(p: Pending): bool {
    match p.at
    case Arrived => false
    case ReadNext(_) => false
    case ReadExternal(next, external) => next > external
    case _ => true
  }

  function PastInternal(p: Pending): bool {
    p.at.ReadBoth? || p.at.Checked? || p.at.Resolved?
  }

  /** Each of the `n` requests that may still move a counter leaves it below the greatest u32. */
  ghost predicate Room(counter: nat, n: nat) {
    n == 0 || counter + n <= HARDENED - 1 + MOST_IN_FLIGHT
  }

  ghost predicate ReadBelow(p: Pending) {
    && (p.at.ReadNext? ==> p.at.next <= HARDENED)
    && (p.at.ReadExternal? ==> p.at.next <= HARDENED)
  }

  /** The scan stays below the hardened indexes, and so does what any request has read of it. */
  ghost predicate Below(s: Scheme, st: State) {
    && st.next <= HARDENED
    && (forall p :: p in st.pending ==> ReadBelow(p))
    && match st.loop
       case Recent(index, _) => index <= HARDENED
       case RecentRead(index) => index <= HARDENED
       case RecentAsked(index, asked) => AsksFor(s, index, index + 1000, asked)
       case FarAsked(start, asked) => start == st.next && AsksFor(s, start, start + 100, asked)
       case FarRead(start) => start == st.next && start + 100 <= HARDENED
       case _ => true
  }

  ghost predicate Guarded(s: Scheme, st: State) {
    && Below(s, st) && |st.pending| <= MOST_IN_FLIGHT
    && Room(st.book.external, Count(PastExternal, st.pending))
    && Room(st.book.internal, Count(PastInternal, st.pending))
  }

  lemma StartsGuarded(s: Scheme, st: State)
    requires Initial(st)
    ensures Guarded(s, st)
  {
  }

  lemma CountsOne<A(!new)>(f: A -> bool, s: seq<A>, i: nat)
    requires i < |s| && f(s[i])
    ensures Count(f, s) >= 1
  {
    assert s[i] in Filter(f, s);
  }

  /** A request that would wrap a counter was let through when the counter was low. */
  lemma GuardedNeverWraps(s: Scheme, st: State, e: Event)
    requires Guarded(s, st)
    ensures !Wraps(st, e)
  {
    hide Below, Count;
    if e.Advance? && e.i < |st.pending| {
      if PastExternal(st.pending[e.i]) {
        CountsOne(PastExternal, st.pending, e.i);
      }
      if PastInternal(st.pending[e.i]) {
        CountsOne(PastInternal, st.pending, e.i);
      }
    }
  }

  lemma ArriveKeepsGuarded(s: Scheme, st: State, request: Request)
    requires Guarded(s, st) && Step(s, st, Arrive(request)).Some?
    ensures Guarded(s, Step(s, st, Arrive(request)).value)
  {
    hide Count, AsksFor;
    CountAppend(PastExternal, st.pending, Pending(request, Arrived));
    CountAppend(PastInternal, st.pending, Pending(request, Arrived));
  }

  lemma GoneKeepsGuarded(s: Scheme, st: State, i: nat)
    requires Guarded(s, st) && i < |st.pending|
    ensures Guarded(s, Gone(st, i))
    ensures PastExternal(st.pending[i]) ==>
      Count(PastExternal, Gone(st, i).pending) + 1 == Count(PastExternal, st.pending)
    ensures PastInternal(st.pending[i]) ==>
      Count(PastInternal, Gone(st, i).pending) + 1 == Count(PastInternal, st.pending)
  {
    hide Count, AsksFor;
    CountAround(PastExternal, st.pending, i, st.pending[i]);
    CountAround(PastInternal, st.pending, i, st.pending[i]);
  }

  /** A read of the check: whoever gets past a counter saw it below the hardened indexes. */
  lemma AtKeepsGuarded(s: Scheme, st: State, i: nat, at: Stage)
    requires Guarded(s, st) && i < |st.pending|
    requires
      var now := Pending(st.pending[i].request, at);
      && ReadBelow(now)
      && (PastExternal(now) ==> PastExternal(st.pending[i]) || st.book.external < HARDENED)
      && (PastInternal(now) ==> PastInternal(st.pending[i]) || st.book.internal < HARDENED)
    ensures Guarded(s, At(st, i, at))
  {
    hide Count, AsksFor;
    var now := Pending(st.pending[i].request, at);
    CountAround(PastExternal, st.pending, i, now);
    CountAround(PastInternal, st.pending, i, now);
    CountWithin(PastExternal, At(st, i, at).pending);
    CountWithin(PastInternal, At(st, i, at).pending);
  }

  lemma AdvanceKeepsGuarded(s: Scheme, st: State, i: nat)
    requires Guarded(s, st) && i < |st.pending|
    ensures Guarded(s, Advanced(s, st, i))
  {
    hide Count, AsksFor, Derived, SendersOf, Room;
    GoneKeepsGuarded(s, st, i);
    var p := st.pending[i];
    assert ReadBelow(p);
    match p.at
    case Arrived => AtKeepsGuarded(s, st, i, ReadNext(st.next));
    case ReadNext(next) => AtKeepsGuarded(s, st, i, ReadExternal(next, st.book.external));
    case ReadExternal(next, external) =>
      if next > Max(external, st.book.internal) {
        AtKeepsGuarded(s, st, i, ReadBoth);
      }
    case ReadBoth => AtKeepsGuarded(s, st, i, Checked);
    case Checked =>
      if p.request.ForReceiving? {
        GivenKeepsGuarded(s, st, i, GiveReceiving(s, st));
      } else if forall t :: t in p.request.from ==> t in st.book.addresses {
        AtKeepsGuarded(s, st, i, Resolved(SendersOf(st.book.addresses, p.request.from)));
      }
    case Resolved(senders) =>
      if p.request.ForChange? {
        GivenKeepsGuarded(s, st, i, GiveChange(s, st, p.request.useExisting, senders));
      }
  }

  /** A request that moves a counter by one is gone afterwards. */
  lemma GivenKeepsGuarded(s: Scheme, st: State, i: nat, given: State)
    requires Guarded(s, st) && i < |st.pending| && PastExternal(st.pending[i]) && PastInternal(st.pending[i])
    requires given.pending == st.pending && given.next == st.next && given.loop == st.loop
    requires given.book.external <= st.book.external + 1 && given.book.internal <= st.book.internal + 1
    ensures Guarded(s, Gone(given, i))
  {
    hide Count, AsksFor;
    GoneKeepsGuarded(s, st, i);
  }

  /** An answer raises a counter only to an index that was asked about, which is not hardened. */
  lemma AnswerIsUnhardened(s: Scheme, start: nat, end: nat, asked: AddressSet, before: Book, after: Book,
                           seen: set<string>)
    requires AsksFor(s, start, end, asked) && MovedBySeen(before, after, asked, seen)
    ensures after.external == before.external || after.external < HARDENED
    ensures after.internal == before.internal || after.internal < HARDENED
  {
  }

  lemma AnswerKeepsGuarded(s: Scheme, st: State, entries: seq<BalanceEntry>)
    requires Guarded(s, st) && s.HasKeys() && Step(s, st, Answer(entries)).Some?
    ensures Guarded(s, Step(s, st, Answer(entries)).value)
  {
    hide Count, AsksFor, Absorbed, UsedTexts, MovedBySeen;
    var start := if st.loop.RecentAsked? then st.loop.index else st.loop.start;
    var end := if st.loop.RecentAsked? then start + 1000 else start + 100;
    AbsorbedFacts(st.book, st.loop.asked, entries);
    var after := Step(s, st, Answer(entries)).value;
    AnswerIsUnhardened(s, start, end, st.loop.asked, st.book, after.book, UsedTexts(entries));
    AskedIsUnhardened(s, start, end, st.loop.asked);
    CountWithin(PastExternal, st.pending);
    CountWithin(PastInternal, st.pending);
  }

  lemma StepKeepsGuarded(s: Scheme, st: State, e: Event)
    requires Guarded(s, st) && s.HasKeys() && Step(s, st, e).Some?
    ensures Guarded(s, Step(s, st, e).value)
  {
    match e
    case Arrive(request) => ArriveKeepsGuarded(s, st, request);
    case Advance(i) => AdvanceKeepsGuarded(s, st, i);
    case Cancel(i) => GoneKeepsGuarded(s, st, i);
    case Answer(entries) => AnswerKeepsGuarded(s, st, entries);
    case Ask(_) => hide Count, AsksFor, Room;
    case Proceed => hide Count, AsksFor, Room;
    case Fail => hide Count, AsksFor, Room;
  }

  /* ----- runs ----- */

  /** The state a list of events leads to; None if one of them cannot happen. */
  ghost function Run(s: Scheme, st: State, es: seq<Event>): Option<State>
    decreases es
  {
    if es == [] then Some(st)
    else if Step(s, st, es[0]).None? then None
    else Run(s, Step(s, st, es[0]).value, es[1..])
  }

  lemma {:induction false} RunAppend(s: Scheme, st: State, a: seq<Event>, b: seq<Event>)
    ensures Run(s, st, a + b) == match Run(s, st, a) { case None => None case Some(t) => Run(s, t, b) }
    decreases a
  {
    hide Step;
    if a == [] {
      assert a + b == b;
    } else {
      assert (a + b)[1..] == a[1..] + b;
      if Step(s, st, a[0]).Some? {
        RunAppend(s, Step(s, st, a[0]).value, a[1..], b);
      }
    }
  }

  lemma {:induction false} RunKeepsGuarded(s: Scheme, st: State, es: seq<Event>)
    requires Guarded(s, st) && s.HasKeys() && Run(s, st, es).Some?
    ensures Guarded(s, Run(s, st, es).value)
    decreases es
  {
    hide Guarded, Step;
    if es != [] {
      StepKeepsGuarded(s, st, es[0]);
      RunKeepsGuarded(s, Step(s, st, es[0]).value, es[1..]);
    }
  }

  /** Whatever the key file said, whatever the node answers and however the requests are
      interleaved: no step of any run wraps a counter. The check that a request goes through before
      it moves a counter sees to that, although the counter may have moved since. */
  lemma NoCounterWraps(s: Scheme, start: State, es: seq<Event>, e: Event)
    requires Initial(start) && s.HasKeys() && Run(s, start, es).Some?
    ensures !Wraps(Run(s, start, es).value, e)
  {
    hide Guarded, Run, Wraps;
    StartsGuarded(s, start);
    RunKeepsGuarded(s, start, es);
    GuardedNeverWraps(s, Run(s, start, es).value, e);
  }

  /** Over any run neither last-used index, nor the scanned prefix, nor what is registered shrinks. */
  lemma {:induction false} RunGrows(s: Scheme, st: State, es: seq<Event>)
    requires Guarded(s, st) && s.HasKeys() && Run(s, st, es).Some?
    ensures
      var after := Run(s, st, es).value;
      && Guarded(s, after)
      && Grows(st.book, after.book) && st.next <= after.next && (st.firstDone ==> after.firstDone)
      && st.answered <= after.answered && st.handedOut <= after.handedOut
    decreases es
  {
    hide Step, Wraps, Guarded;
    if es != [] {
      GuardedNeverWraps(s, st, es[0]);
      StepGrows(s, st, es[0]);
      StepKeepsGuarded(s, st, es[0]);
      RunGrows(s, Step(s, st, es[0]).value, es[1..]);
    }
  }

  /* ----- what holds in every state ----- */

  /** Every registered address is one the node has said is used or a handler has given out, and the
      last-used index of its keychain has reached it. */
  ghost predicate Known(s: Scheme, st: State) {
    && Genuine(s, st.book.addresses)
    && st.book.addresses.Keys == st.seen + st.given
    && (forall i :: i in st.handedOut ==> i <= st.book.external)
    && forall w :: OneOf(s, w, st.book.addresses.Keys) ==> Reached(st.book, w)
  }

  /** The scanned prefix has been answered for. */
  ghost predicate PrefixAnswered(s: Scheme, st: State) {
    && Span(0, st.next) <= st.answered
    && match st.loop
       case Recent(index, _) => Span(0, index) <= st.answered
       case RecentRead(index) => Span(0, index) <= st.answered
       case RecentAsked(index, _) => Span(0, index) <= st.answered
       case FarRead(start) => start == st.next && Span(start, start + 100) <= st.answered
       case _ => true
  }

  /** The senders of a request that has looked them up stay registered. */
  ghost predicate SendersKnown(s: Scheme, st: State) {
    forall p, w :: p in st.pending && p.at.Resolved? && w in p.at.senders ==> OneOf(s, w, st.book.addresses.Keys)
  }

  ghost predicate Invariant(s: Scheme, st: State) {
    Guarded(s, st) && Known(s, st) && PrefixAnswered(s, st) && SendersKnown(s, st)
  }

  lemma StartsWell(s: Scheme, st: State)
    requires Initial(st)
    ensures Invariant(s, st)
  {
    StartsGuarded(s, st);
    assert forall w :: !OneOf(s, w, st.book.addresses.Keys);
  }

  /** An address that is registered and reached leaves all registered ones reached. */
  lemma EnterIsReached(s: Scheme, before: Book, after: Book, t: string, w: WalletAddress)
    requires Injective(s) && TextOf(s, w) == Ok(t) && Reached(after, w)
    requires Grows(before, after) && after.addresses.Keys == before.addresses.Keys + {t}
    requires forall v :: OneOf(s, v, before.addresses.Keys) ==> Reached(before, v)
    ensures forall v :: OneOf(s, v, after.addresses.Keys) ==> Reached(after, v)
  {
    forall v | OneOf(s, v, after.addresses.Keys) ensures Reached(after, v) {
      if TextOf(s, v).value == t {
        TextDeterminesIndex(s, w, v);
      } else {
        assert OneOf(s, v, before.addresses.Keys);
      }
    }
  }

  lemma ReceivingIsKnown(s: Scheme, st: State)
    requires Injective(s) && Known(s, st) && st.book.external != U32_MAX
    ensures Known(s, GiveReceiving(s, st))
  {
    var (book, r) := NewReceiving(s, st.book);
    if r.Ok? {
      hide Derived, Genuine;
      EnterIsReached(s, st.book, book, r.value.0, r.value.1);
    }
  }

  lemma ChangeIsKnown(s: Scheme, st: State, useExisting: bool, senders: seq<WalletAddress>)
    requires Injective(s) && Known(s, st) && (senders == [] && !useExisting ==> st.book.internal != U32_MAX)
    requires forall w :: w in senders ==> OneOf(s, w, st.book.addresses.Keys)
    ensures Known(s, GiveChange(s, st, useExisting, senders))
  {
    hide Genuine, OneOf, Reached, TextOf;
    KnownIsReached(s, st);
    ChangeEnters(s, st.book, useExisting, senders);
    hide Derived, ChangeFor, Known;
    var (book, r) := ChangeFor(s, st.book, useExisting, senders);
    if r.Ok? {
      EnterIsReached(s, st.book, book, s.text(r.value.0), r.value.1);
      StaysKnown(s, st, st.(book := book, given := st.given + {s.text(r.value.0)}));
    } else {
      StaysKnown(s, st, st.(book := book));
      assert st.given + {} == st.given;
    }
  }

  lemma KnownIsReached(s: Scheme, st: State)
    requires Known(s, st)
    ensures Genuine(s, st.book.addresses) && forall w :: OneOf(s, w, st.book.addresses.Keys) ==> Reached(st.book, w)
  {
  }

  lemma StaysKnown(s: Scheme, st: State, after: State)
    requires Known(s, st) && Genuine(s, after.book.addresses) && Grows(st.book, after.book)
    requires after.handedOut == st.handedOut && after.book.addresses.Keys == after.seen + after.given
    requires after.book.addresses == st.book.addresses ||
      forall w :: OneOf(s, w, after.book.addresses.Keys) ==> Reached(after.book, w)
    ensures Known(s, after)
  {
    hide Genuine;
    forall w | OneOf(s, w, after.book.addresses.Keys) ensures Reached(after.book, w) {
      if after.book.addresses == st.book.addresses {
        assert Reached(st.book, w);
      }
    }
  }

  /** A change address that is made is registered and reached, and no other is registered. */
  lemma ChangeEnters(s: Scheme, b: Book, useExisting: bool, senders: seq<WalletAddress>)
    requires forall w :: w in senders ==> OneOf(s, w, b.addresses.Keys)
    requires forall w :: OneOf(s, w, b.addresses.Keys) ==> Reached(b, w)
    ensures
      var (book, r) := ChangeFor(s, b, useExisting, senders);
      && book.external == b.external
      && (r.Err? ==> book.addresses == b.addresses)
      && (r.Ok? ==> && book.addresses.Keys == b.addresses.Keys + {s.text(r.value.0)} && Reached(book, r.value.1)
                    && TextOf(s, r.value.1) == Ok(s.text(r.value.0)))
  {
    hide Genuine;
    if senders != [] {
      assert senders[0] in senders;
    }
  }

  lemma SeenIsReached(s: Scheme, start: nat, end: nat, asked: AddressSet, before: Book, after: Book,
                      more: set<string>)
    requires Injective(s) && AsksFor(s, start, end, asked) && TookIn(before, after, asked, more)
    requires forall w :: OneOf(s, w, before.addresses.Keys) ==> Reached(before, w)
    ensures forall w :: OneOf(s, w, after.addresses.Keys) ==> Reached(after, w)
  {
    forall w | OneOf(s, w, after.addresses.Keys) ensures Reached(after, w) {
      var t := TextOf(s, w).value;
      if t in more {
        TextDeterminesIndex(s, asked[t], w);
      } else {
        assert OneOf(s, w, before.addresses.Keys);
      }
    }
  }

  lemma AnswerKeepsKnown(s: Scheme, st: State, start: nat, end: nat, asked: AddressSet,
                         entries: seq<BalanceEntry>, loop: SyncLoop)
    requires Injective(s) && Known(s, st) && AsksFor(s, start, end, asked)
    requires Answered(st, start, end, asked, entries, loop).Some?
    ensures Known(s, Answered(st, start, end, asked, entries, loop).value)
  {
    var after := Answered(st, start, end, asked, entries, loop).value;
    hide AsksFor, Absorbed, UsedTexts, OneOf, Reached, Genuine, MovedBySeen;
    AbsorbedFacts(st.book, asked, entries);
    SeenIsReached(s, start, end, asked, st.book, after.book, UsedTexts(entries));
    AskedIsGenuine(s, start, end, asked);
    TookInGenuine(s, st.book, after.book, asked, UsedTexts(entries));
  }

  lemma StepKeepsKnown(s: Scheme, st: State, e: Event)
    requires Injective(s) && Invariant(s, st) && Step(s, st, e).Some?
    ensures Known(s, Step(s, st, e).value)
  {
    hide AsksFor, Absorbed, UsedTexts, OneOf, Reached, Genuine, Count, Room, NewReceiving, ChangeFor, PrefixAnswered;
    GuardedNeverWraps(s, st, e);
    if e.Advance? {
      var p := st.pending[e.i];
      if p == Pending(ForReceiving, Checked) {
        ReceivingIsKnown(s, st);
      } else if p.request.ForChange? && p.at.Resolved? {
        ChangeIsKnown(s, st, p.request.useExisting, p.at.senders);
      }
    } else if e.Answer? && st.loop.RecentAsked? {
      var end := st.loop.index + 1000;
      AnswerKeepsKnown(s, st, st.loop.index, end, st.loop.asked, e.entries, RecentRead(end));
    } else if e.Answer? {
      AnswerKeepsKnown(s, st, st.loop.start, st.loop.start + 100, st.loop.asked, e.entries, FarRead(st.loop.start));
    }
  }

  lemma StepKeepsPrefix(s: Scheme, st: State, e: Event)
    requires Guarded(s, st) && PrefixAnswered(s, st) && Step(s, st, e).Some?
    ensures PrefixAnswered(s, Step(s, st, e).value)
  {
    hide AsksFor, Absorbed, UsedTexts, Count, Room, NewReceiving, ChangeFor;
  }

  lemma StepKeepsSenders(s: Scheme, st: State, e: Event)
    requires Genuine(s, st.book.addresses) && SendersKnown(s, st) && Step(s, st, e).Some?
    ensures SendersKnown(s, Step(s, st, e).value)
  {
    var after := Step(s, st, e).value;
    KeysGrow(s, st, e);
    hide AsksFor, Absorbed, UsedTexts, GiveReceiving, GiveChange, Genuine;
    forall p, w | p in after.pending && p.at.Resolved? && w in p.at.senders
      ensures OneOf(s, w, after.book.addresses.Keys)
    {
      if p in st.pending {
        assert OneOf(s, w, st.book.addresses.Keys);
      } else {
        var texts := st.pending[e.i].request.from;
        var j :| 0 <= j < |p.at.senders| && p.at.senders[j] == w;
        assert texts[j] in texts;
        LookedUpIsKnown(s, st.book.addresses, texts[j]);
      }
    }
  }

  lemma LookedUpIsKnown(s: Scheme, addresses: AddressSet, t: string)
    requires Genuine(s, addresses) && t in addresses
    ensures OneOf(s, addresses[t], addresses.Keys)
  {
  }

  lemma KeysGrow(s: Scheme, st: State, e: Event)
    requires Step(s, st, e).Some?
    ensures st.book.addresses.Keys <= Step(s, st, e).value.book.addresses.Keys
  {
    hide AsksFor, Absorbed, UsedTexts, Derived, MovedBySeen;
    if e.Answer? {
      AbsorbedFacts(st.book, st.loop.asked, e.entries);
    }
  }

  lemma StepKeepsInvariant(s: Scheme, st: State, e: Event)
    requires Injective(s) && s.HasKeys() && Invariant(s, st) && Step(s, st, e).Some?
    ensures Invariant(s, Step(s, st, e).value)
  {
    hide Step, Guarded, Known, PrefixAnswered, SendersKnown;
    StepKeepsGuarded(s, st, e);
    StepKeepsKnown(s, st, e);
    StepKeepsPrefix(s, st, e);
    KnownIsGenuine(s, st);
    StepKeepsSenders(s, st, e);
  }

  lemma KnownIsGenuine(s: Scheme, st: State)
    requires Known(s, st)
    ensures Genuine(s, st.book.addresses)
  {
  }

  /** Everything in the invariant holds after every run from the start of the daemon. */
  lemma {:induction false} RunKeepsInvariant(s: Scheme, st: State, es: seq<Event>)
    requires Injective(s) && s.HasKeys() && Invariant(s, st) && Run(s, st, es).Some?
    ensures Invariant(s, Run(s, st, es).value)
    decreases es
  {
    hide Invariant, Step;
    if es != [] {
      StepKeepsInvariant(s, st, es[0]);
      RunKeepsInvariant(s, Step(s, st, es[0]).value, es[1..]);
    }
  }

  /* ----- new addresses ----- */

  /** Whatever the interleaving, the address a request is about to be given was never handed out,
      never given as a change address and never seen used: it is not registered at all. */
  lemma NewAddressIsNew(s: Scheme, start: State, es: seq<Event>, i: nat)
    requires Injective(s) && s.HasKeys() && Initial(start) && Run(s, start, es).Some?
    requires var st := Run(s, start, es).value;
      && i < |st.pending| && st.pending[i] == Pending(ForReceiving, Checked) && NewReceiving(s, st.book).1.Ok?
    ensures
      var st := Run(s, start, es).value;
      var (text, w) := NewReceiving(s, st.book).1.value;
      && w.index !in st.handedOut && text !in st.seen && text !in st.given && text !in st.book.addresses
  {
    StartsWell(s, start);
    RunKeepsInvariant(s, start, es);
    hide Run, Guarded;
    var st := Run(s, start, es).value;
    var (text, w) := NewReceiving(s, st.book).1.value;
    assert OneOf(s, w, st.book.addresses.Keys) <==> text in st.book.addresses;
    assert OneOf(s, w, st.book.addresses.Keys) ==> Reached(st.book, w);
    assert !Reached(st.book, w);
  }

  /** It rests on the check: the bare operation, asked twice with its counter at the greatest u32,
      fails once and then hands out index 1, registered or not. */
  lemma BareOperationRepeats(s: Scheme, b: Book)
    requires b.external == U32_MAX
    ensures
      var (moved, first) := NewReceiving(s, b);
      var (_, second) := NewReceiving(s, moved);
      first == Err(Overflow) && second.Ok? && second.value.1 == WalletAddress(1, s.cosignerIndex, External)
  {
  }

  /* ----- one request at a time ----- */

  /** `is_synced`, read in one moment. */
  ghost predicate InSync(st: State) {
    st.next > LastUsed(st.book) && st.firstDone
  }

  /** A request with nothing else going on: served exactly when the wallet is in sync. */
  lemma AloneServedIffSynced(s: Scheme, st: State)
    requires st.pending == []
    ensures
      var served := Run(s, st, [Arrive(ForReceiving), Advance(0), Advance(0), Advance(0), Advance(0), Advance(0)]);
      served == if InSync(st) then Some(GiveReceiving(s, st)) else None
    ensures st.next <= LastUsed(st.book) ==>
      Run(s, st, [Arrive(ForReceiving), Advance(0), Advance(0), Advance(0)]) == Some(st)
    ensures st.next > LastUsed(st.book) && !st.firstDone ==>
      Run(s, st, [Arrive(ForReceiving), Advance(0), Advance(0), Advance(0), Advance(0)]) == Some(st)
  {
    hide NewReceiving, ChangeFor, AsksFor, Absorbed;
  }
}
