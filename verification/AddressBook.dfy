/** The wallet's addresses as values: derivation, the registered addresses, the last-used indexes
    and what each operation of daemon/src/address_manager.rs does to them. */
module AddressBook {
  import opened Arithmetic
  import opened Wrappers
  import opened Model
  import opened Derivation

  /** Key derivation and address text, which upstream crates provide, and the key file's own
      constants: how many public keys it holds and which of them is ours. */
  datatype Scheme = Scheme(
    cosigners: U16, cosignerIndex: U16, addressAt: DerivationPath -> Address, text: Address -> string)
  {
    predicate IsMultisig() {
      cosigners > 1
    }

    /** The key file holds a public key at all. */
    predicate HasKeys() {
      cosigners > 0
    }
  }

  function Derived(s: Scheme, w: WalletAddress): Result<Address> {
    var path :- CalculateAddressPath(s.IsMultisig(), w);
    Ok(s.addressAt(path))
  }

  function TextOf(s: Scheme, w: WalletAddress): Result<string> {
    var address :- Derived(s, w);
    Ok(s.text(address))
  }

  /** Different paths give different address texts: derivation and text are injective. */
  ghost predicate Injective(s: Scheme) {
    forall p, q :: s.text(s.addressAt(p)) == s.text(s.addressAt(q)) ==> p == q
  }

  /** A key file with one public key leaves the cosigner out of the path, one with several does not. */
  lemma DerivedIs(s: Scheme, w: WalletAddress)
    requires w.index < 0x8000_0000
    ensures
      var keychain := if w.keychain == External then 0 else 1;
      Derived(s, w) == Ok(s.addressAt(if s.cosigners >= 2 then [w.cosignerIndex, keychain, w.index]
                                      else [keychain, w.index]))
  {
  }

  type AddressSet = map<string, WalletAddress>

  /** The index and the keychain can be read back from an address text, and in a multisig wallet
      the cosigner too. */
  lemma TextDeterminesIndex(s: Scheme, a: WalletAddress, b: WalletAddress)
    requires Injective(s) && TextOf(s, a).Ok? && TextOf(s, a) == TextOf(s, b)
    ensures a.index == b.index && a.keychain == b.keychain
    ensures s.IsMultisig() ==> a == b
  {
    var p, q := CalculateAddressPath(s.IsMultisig(), a).value, CalculateAddressPath(s.IsMultisig(), b).value;
    assert p == q;
    PathDeterminesAddress(s.IsMultisig(), a, b);
  }

  /** Every text stands for a wallet address that derives to it. */
  ghost predicate Genuine(s: Scheme, addresses: AddressSet) {
    forall t :: t in addresses ==> TextOf(s, addresses[t]) == Ok(t)
  }

  /** The text of `w` is one of `texts`. */
  ghost predicate OneOf(s: Scheme, w: WalletAddress, texts: set<string>) {
    TextOf(s, w).Ok? && TextOf(s, w).value in texts
  }

  /** Every cached address is what derivation would give. */
  ghost predicate CacheIsDerived(s: Scheme, cache: map<WalletAddress, Address>) {
    forall w :: w in cache ==> Derived(s, w) == Ok(cache[w])
  }

  /* ----- registered addresses and last-used indexes ----- */

  datatype Book = Book(addresses: AddressSet, external: U32, internal: U32)

  function LastUsed(b: Book): U32 {
    Max(b.external, b.internal)
  }

  /** Indexes and registrations only ever grow. */
  ghost predicate Grows(before: Book, after: Book) {
    && before.external <= after.external && before.internal <= after.internal
    && before.addresses.Keys <= after.addresses.Keys
  }

  /** The last-used index of an address's own keychain has reached its index. */
  ghost predicate Reached(b: Book, w: WalletAddress) {
    w.index <= if w.keychain == External then b.external else b.internal
  }

  /* ----- handing out addresses ----- */

  /** The senders of a request, looked up by text. */
  function SendersOf(addresses: AddressSet, texts: seq<string>): (r: seq<WalletAddress>)
    requires forall t :: t in texts ==> t in addresses
    ensures |r| == |texts| && forall i :: 0 <= i < |texts| ==> r[i] == addresses[texts[i]]
  {
    seq(|texts|, i requires 0 <= i < |texts| => addresses[texts[i]])
  }

  /** `fetch_add(1)` on a u32 counter. */
  function Next(counter: U32): U32 {
    if counter == U32_MAX then 0 else counter + 1
  }

  /** Derive and register `w` in a book whose counters have already moved. */
  function Enter(s: Scheme, b: Book, w: WalletAddress): (Book, Result<Address>) {
    match Derived(s, w)
    case Err(e) => (b, Err(e))
    case Ok(a) => (b.(addresses := b.addresses[s.text(a) := w]), Ok(a))
  }

  /** A new receiving address. The counter wraps, the addition of one to its old value traps. */
  function NewReceiving(s: Scheme, b: Book): (r: (Book, Result<(string, WalletAddress)>))
    ensures Genuine(s, b.addresses) ==> Genuine(s, r.0.addresses)
    ensures r.1.Ok? <==> b.external + 1 < 0x8000_0000
    ensures r.1.Ok? ==>
      && r.1.value.1 == WalletAddress(b.external + 1, s.cosignerIndex, External)
      && TextOf(s, r.1.value.1) == Ok(r.1.value.0)
      && r.0 == Book(b.addresses[r.1.value.0 := r.1.value.1], b.external + 1, b.internal)
    ensures Grows(b, r.0) <==> b.external != U32_MAX
    ensures r.0.external == (if b.external == 0xFFFF_FFFF then 0 else b.external + 1) && r.0.internal == b.internal
  {
    var moved := b.(external := Next(b.external));
    if b.external == U32_MAX then (moved, Err(Overflow))
    else
      var w := WalletAddress(b.external + 1, s.cosignerIndex, External);
      match Enter(s, moved, w)
      case (after, Err(e)) => (after, Err(e))
      case (after, Ok(a)) => (after, Ok((s.text(a), w)))
  }

  /** The change address: the first sender if there is one, else index 0 or a new index. */
  function ChangeFor(s: Scheme, b: Book, useExisting: bool, from: seq<WalletAddress>)
    : (r: (Book, Result<(Address, WalletAddress)>))
    ensures Genuine(s, b.addresses) ==> Genuine(s, r.0.addresses)
    ensures r.1.Ok? ==> var t := s.text(r.1.value.0); t in r.0.addresses && r.0.addresses[t] == r.1.value.1
    ensures r.1.Ok? && from != [] ==> r.1.value.1 == from[0]
    ensures r.1.Ok? ==> Derived(s, r.1.value.1) == Ok(r.1.value.0)
    ensures b.addresses.Keys <= r.0.addresses.Keys
    ensures Grows(b, r.0) <==> from != [] || useExisting || b.internal != U32_MAX
  {
    if from == [] && !useExisting && b.internal == U32_MAX then (b.(internal := 0), Err(Overflow))
    else
      var moved := if from == [] && !useExisting then b.(internal := b.internal + 1) else b;
      var w := if from != [] then from[0]
               else WalletAddress(if useExisting then 0 else moved.internal, s.cosignerIndex, Internal);
      match Enter(s, moved, w)
      case (after, Err(e)) => (after, Err(e))
      case (after, Ok(a)) => (after, Ok((a, w)))
  }

  /** Which change address that is, when there is one, and what happens to the counters. */
  lemma ChangeIs(s: Scheme, b: Book, useExisting: bool, from: seq<WalletAddress>)
    ensures
      var (after, change) := ChangeFor(s, b, useExisting, from);
      var index := if useExisting then 0 else b.internal + 1;
      && (from != [] ==> (change.Ok? <==> from[0].index < 0x8000_0000))
      && (from == [] ==> (change.Ok? <==> index < 0x8000_0000))
      && (from == [] && change.Ok? ==> change.value.1 == WalletAddress(index, s.cosignerIndex, Internal))
      && after.external == b.external
      && after.internal == (if from != [] || useExisting then b.internal
                            else if b.internal == 0xFFFF_FFFF then 0 else index)
      && (change.Err? ==> after.addresses == b.addresses)
  {
  }

  /* ----- taking in the node's balances ----- */

  datatype BalanceEntry = BalanceEntry(address: string, balance: Option<nat>)

  predicate IsUsed(e: BalanceEntry) {
    e.balance != Some(0)
  }

  function Register(b: Book, t: string, w: WalletAddress): Book {
    var addresses := b.addresses[t := w];
    if w.keychain == External then Book(addresses, Max(b.external, w.index), b.internal)
    else Book(addresses, b.external, Max(b.internal, w.index))
  }

  /** What the node's answer about `asked` adds to the book. A used address that was not asked
      about, or is answered twice, has nothing left to be removed and traps. */
  function Absorbed(b: Book, asked: AddressSet, entries: seq<BalanceEntry>): Result<Book>
    decreases entries
  {
    if entries == [] then Ok(b)
    else if !IsUsed(entries[0]) then Absorbed(b, asked, entries[1..])
    else if entries[0].address !in asked then Err(MissingElement)
    else
      var t := entries[0].address;
      Absorbed(Register(b, t, asked[t]), asked - {t}, entries[1..])
  }

  /** The addresses an answer says were used. */
  function UsedTexts(entries: seq<BalanceEntry>): set<string> {
    if entries == [] then {}
    else UsedTexts(entries[1..]) + if IsUsed(entries[0]) then {entries[0].address} else {}
  }

  /** No used address is answered twice. */
  ghost predicate UsedOnce(entries: seq<BalanceEntry>) {
    entries == [] ||
    (UsedOnce(entries[1..]) && (IsUsed(entries[0]) ==> entries[0].address !in UsedTexts(entries[1..])))
  }

  /** The `i`-th line of an answer gives `t` a balance other than zero (or none at all, which counts as
      one). */
  ghost predicate Funds(entries: seq<BalanceEntry>, i: int, t: string) {
    0 <= i < |entries| && entries[i].address == t && entries[i].balance != Some(0)
  }

  lemma {:induction false} UsedAreFunded(entries: seq<BalanceEntry>)
    ensures forall t :: t in UsedTexts(entries) <==> exists i :: Funds(entries, i, t)
  {
    if entries != [] {
      var rest := entries[1..];
      UsedAreFunded(rest);
      forall t ensures t in UsedTexts(entries) <==> exists i :: Funds(entries, i, t) {
        if i :| Funds(rest, i, t) {
          assert Funds(entries, i + 1, t);
        }
        if i :| Funds(entries, i, t) {
          assert i > 0 ==> Funds(rest, i - 1, t);
        }
        if IsUsed(entries[0]) && t == entries[0].address {
          assert Funds(entries, 0, t);
        }
      }
    }
  }

  /** No address has two lines with a balance other than zero. */
  ghost predicate FundsOnce(entries: seq<BalanceEntry>) {
    forall i, j, t :: Funds(entries, i, t) && Funds(entries, j, t) ==> i == j
  }

  lemma {:induction false} OnceIff(entries: seq<BalanceEntry>)
    ensures UsedOnce(entries) <==> FundsOnce(entries)
  {
    if entries != [] {
      var rest := entries[1..];
      OnceIff(rest);
      UsedAreFunded(rest);
      forall i, t ensures Funds(rest, i, t) <==> i >= 0 && Funds(entries, i + 1, t) {
      }
      if FundsOnce(entries) {
        forall i, j, t | Funds(rest, i, t) && Funds(rest, j, t) ensures i == j {
          assert Funds(entries, i + 1, t) && Funds(entries, j + 1, t);
        }
        if IsUsed(entries[0]) {
          assert Funds(entries, 0, entries[0].address);
        }
      } else {
        var i, j, t :| Funds(entries, i, t) && Funds(entries, j, t) && i != j;
        assert i > 0 ==> Funds(rest, i - 1, t);
        assert j > 0 ==> Funds(rest, j - 1, t);
      }
    }
  }

  /** The answer is taken in unless it gives a balance to an address not asked about, or two to one. */
  lemma AbsorbedIffAsked(b: Book, asked: AddressSet, entries: seq<BalanceEntry>)
    ensures Absorbed(b, asked, entries).Ok? <==>
      (forall i, t :: Funds(entries, i, t) ==> t in asked) && FundsOnce(entries)
  {
    AbsorbedIff(b, asked, entries);
    UsedAreFunded(entries);
    OnceIff(entries);
    if !(UsedTexts(entries) <= asked.Keys) {
      var t :| t in UsedTexts(entries) && t !in asked.Keys;
    }
  }

  lemma {:induction false} AbsorbedIff(b: Book, asked: AddressSet, entries: seq<BalanceEntry>)
    ensures Absorbed(b, asked, entries).Ok? <==> UsedTexts(entries) <= asked.Keys && UsedOnce(entries)
    decreases entries
  {
    if entries != [] {
      var t := entries[0].address;
      if !IsUsed(entries[0]) {
        AbsorbedIff(b, asked, entries[1..]);
      } else if t in asked {
        AbsorbedIff(Register(b, t, asked[t]), asked - {t}, entries[1..]);
      }
    }
  }

  /** A line with a balance of zero changes nothing, wherever it stands. */
  lemma {:induction false} ZeroChangesNothing(b: Book, asked: AddressSet, xs: seq<BalanceEntry>, e: BalanceEntry,
                                              ys: seq<BalanceEntry>)
    requires e.balance == Some(0)
    ensures Absorbed(b, asked, xs + [e] + ys) == Absorbed(b, asked, xs + ys)
    decreases xs
  {
    if xs == [] {
      assert ([e] + ys)[1..] == ys && xs + [e] + ys == [e] + ys && xs + ys == ys;
    } else {
      var t := xs[0].address;
      assert (xs + [e] + ys)[1..] == xs[1..] + [e] + ys && (xs + ys)[1..] == xs[1..] + ys;
      if xs[0].balance == Some(0) {
        ZeroChangesNothing(b, asked, xs[1..], e, ys);
      } else if t in asked {
        ZeroChangesNothing(Register(b, t, asked[t]), asked - {t}, xs[1..], e, ys);
      }
    }
  }

  /** One with a positive balance registers its address as what was asked for. */
  lemma FundedIsRegistered(b: Book, asked: AddressSet, entries: seq<BalanceEntry>, i: nat, n: nat)
    requires i < |entries| && n > 0 && entries[i].balance == Some(n) && Absorbed(b, asked, entries).Ok?
    ensures
      var t, after := entries[i].address, Absorbed(b, asked, entries).value;
      t in asked && t in after.addresses && after.addresses[t] == asked[t] && Reached(after, asked[t])
  {
    hide Absorbed, UsedTexts;
    AbsorbedFacts(b, asked, entries);
    UsedAreFunded(entries);
    assert Funds(entries, i, entries[i].address);
  }

  /** An index moves only to that of an address just seen used. */
  ghost predicate MovedBySeen(before: Book, after: Book, asked: AddressSet, seen: set<string>) {
    && (after.external == before.external ||
        exists t :: t in seen && t in asked && asked[t].keychain == External && asked[t].index == after.external)
    && (after.internal == before.internal ||
        exists t :: t in seen && t in asked && asked[t].keychain == Internal && asked[t].index == after.internal)
  }

  /** Exactly the used addresses are registered, as the wallet addresses asked about, and the
      last-used indexes rise to the greatest of theirs. */
  ghost predicate TookIn(before: Book, after: Book, asked: AddressSet, seen: set<string>) {
    && Grows(before, after)
    && after.addresses.Keys == before.addresses.Keys + seen && seen <= asked.Keys
    && (forall t :: t in seen ==> after.addresses[t] == asked[t] && Reached(after, asked[t]))
    && (forall t :: t in before.addresses && t !in seen ==> after.addresses[t] == before.addresses[t])
    && MovedBySeen(before, after, asked, seen)
  }

  lemma {:induction false} AbsorbedFacts(b: Book, asked: AddressSet, entries: seq<BalanceEntry>)
    requires Absorbed(b, asked, entries).Ok?
    ensures TookIn(b, Absorbed(b, asked, entries).value, asked, UsedTexts(entries))
    decreases entries
  {
    if entries != [] {
      if IsUsed(entries[0]) {
        var t := entries[0].address;
        AbsorbedFacts(Register(b, t, asked[t]), asked - {t}, entries[1..]);
        var rest := UsedTexts(entries[1..]);
        hide Absorbed, UsedTexts;
        TookInMore(b, asked, t, Absorbed(Register(b, t, asked[t]), asked - {t}, entries[1..]).value, rest);
      } else {
        AbsorbedFacts(b, asked, entries[1..]);
      }
    }
  }

  lemma TookInMore(b: Book, asked: AddressSet, t: string, after: Book, rest: set<string>)
    requires t in asked && TookIn(Register(b, t, asked[t]), after, asked - {t}, rest)
    ensures TookIn(b, after, asked, rest + {t})
  {
    var middle := Register(b, t, asked[t]);
    assert t !in rest;
    assert after.addresses[t] == asked[t];
    MovedThrough(b, middle, after, asked, t, rest);
  }

  lemma MovedThrough(b: Book, middle: Book, after: Book, asked: AddressSet, t: string, rest: set<string>)
    requires t in asked && middle == Register(b, t, asked[t])
    requires MovedBySeen(middle, after, asked - {t}, rest)
    ensures MovedBySeen(b, after, asked, rest + {t})
  {
    var seen := rest + {t};
    if after.external != middle.external {
      var x :| x in rest && x in asked - {t} && asked[x].keychain == External && asked[x].index == after.external;
      assert x in seen;
    } else if middle.external != b.external {
      assert t in seen;
    }
    if after.internal != middle.internal {
      var x :| x in rest && x in asked - {t} && asked[x].keychain == Internal && asked[x].index == after.internal;
      assert x in seen;
    } else if middle.internal != b.internal {
      assert t in seen;
    }
  }

  lemma TookInGenuine(s: Scheme, before: Book, after: Book, asked: AddressSet, seen: set<string>)
    requires Genuine(s, before.addresses) && Genuine(s, asked) && TookIn(before, after, asked, seen)
    ensures Genuine(s, after.addresses)
  {
    forall t | t in after.addresses ensures TextOf(s, after.addresses[t]) == Ok(t) {
      assert t in seen || t in before.addresses;
    }
  }
}
