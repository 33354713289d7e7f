/** The address manager and the key file's counters (daemon/src/address_manager.rs). Every method
    is one critical section; saving the key file is left out. */
module AddressManager {
  import opened Wrappers
  import opened Model
  import opened Derivation
  import opened AddressBook

  class Keys {
    var lastUsedExternalIndex: U32
    var lastUsedInternalIndex: U32

    constructor (external: U32, internal: U32)
      ensures lastUsedExternalIndex == external && lastUsedInternalIndex == internal
    {
      lastUsedExternalIndex, lastUsedInternalIndex := external, internal;
    }

    /** Both counters, read one after the other. */
    function LastUsedIndex(): (r: U32)
      reads this
      ensures lastUsedExternalIndex <= r && lastUsedInternalIndex <= r
      ensures r == lastUsedExternalIndex || r == lastUsedInternalIndex
    {
      if lastUsedExternalIndex >= lastUsedInternalIndex then lastUsedExternalIndex else lastUsedInternalIndex
    }
  }

  /* ----- the addresses of a range of indexes ----- */

  /** The addresses the three nested loops have been through: all of those before the given one
      in order of index, cosigner and keychain. */
  ghost predicate Visited(s: Scheme, start: nat, index: nat, cosigner: nat, keychain: nat, w: WalletAddress) {
    && start <= w.index && w.cosignerIndex < s.cosigners
    && (w.index < index || (w.index == index &&
         (w.cosignerIndex < cosigner || (w.cosignerIndex == cosigner && KeychainNumber(w.keychain) < keychain))))
  }

  ghost predicate Asks(s: Scheme, start: nat, index: nat, cosigner: nat, keychain: nat, asked: AddressSet) {
    && (forall w :: Visited(s, start, index, cosigner, keychain, w) ==> TextOf(s, w).Ok? && TextOf(s, w).value in asked)
    && (forall t :: t in asked ==>
      Visited(s, start, index, cosigner, keychain, asked[t]) && TextOf(s, asked[t]) == Ok(t))
  }

  /** `asked` holds every address of every cosigner and keychain with index in `[start, end)`,
      and no others. */
  ghost predicate AsksFor(s: Scheme, start: nat, end: nat, asked: AddressSet) {
    Asks(s, start, end, 0, 0, asked)
  }

  /** In other words: a text is asked about exactly when it is that of a cosigner's address, of either
      keychain, with an index in the range; and as one of those. */
  lemma AskedAre(s: Scheme, start: nat, end: nat, asked: AddressSet, t: string)
    requires AsksFor(s, start, end, asked)
    ensures t in asked <==> exists w: WalletAddress :: InRange(s, start, end, w, t)
    ensures t in asked ==> InRange(s, start, end, asked[t], t)
  {
    forall w: WalletAddress | InRange(s, start, end, w, t) ensures t in asked {
      assert Visited(s, start, end, 0, 0, w);
    }
    if t in asked {
      assert InRange(s, start, end, asked[t], t);
    }
  }

  ghost predicate InRange(s: Scheme, start: nat, end: nat, w: WalletAddress, t: string) {
    start <= w.index < end && w.cosignerIndex < s.cosigners && TextOf(s, w) == Ok(t)
  }

  lemma AskOneMore(s: Scheme, start: nat, w: WalletAddress, asked: AddressSet)
    requires Asks(s, start, w.index, w.cosignerIndex, KeychainNumber(w.keychain), asked)
    requires start <= w.index && w.cosignerIndex < s.cosigners && TextOf(s, w).Ok?
    ensures Asks(s, start, w.index, w.cosignerIndex, KeychainNumber(w.keychain) + 1, asked[TextOf(s, w).value := w])
  {
    var more := asked[TextOf(s, w).value := w];
    forall v | Visited(s, start, w.index, w.cosignerIndex, KeychainNumber(w.keychain) + 1, v)
      ensures TextOf(s, v).Ok? && TextOf(s, v).value in more
    {
      assert v == w || Visited(s, start, w.index, w.cosignerIndex, KeychainNumber(w.keychain), v);
    }
    forall t | t in more
      ensures Visited(s, start, w.index, w.cosignerIndex, KeychainNumber(w.keychain) + 1, more[t])
      ensures TextOf(s, more[t]) == Ok(t)
    {
      assert more[t] == w || Visited(s, start, w.index, w.cosignerIndex, KeychainNumber(w.keychain), asked[t]);
    }
  }

  /** Having been through both keychains of the last cosigner is having begun the next index. */
  lemma AskNext(s: Scheme, start: nat, index: nat, cosigner: nat, asked: AddressSet)
    ensures Asks(s, start, index, cosigner, 2, asked) ==> Asks(s, start, index, cosigner + 1, 0, asked)
    ensures Asks(s, start, index, s.cosigners, 0, asked) ==> Asks(s, start, index + 1, 0, 0, asked)
  {
    assert forall w :: Visited(s, start, index, cosigner + 1, 0, w) == Visited(s, start, index, cosigner, 2, w);
    assert forall w :: Visited(s, start, index + 1, 0, 0, w) == Visited(s, start, index, s.cosigners, 0, w);
  }

  /** Only a range that reaches the hardened indexes cannot be asked for. */
  lemma AskedIsUnhardened(s: Scheme, start: nat, end: nat, asked: AddressSet)
    requires AsksFor(s, start, end, asked) && start < end <= U32_MAX && s.cosigners > 0
    ensures end <= HARDENED
  {
    var w := WalletAddress(end - 1, 0, External);
    assert Visited(s, start, end, 0, 0, w);
  }

  /* ----- the manager ----- */

  class AddressManager {
    const scheme: Scheme
    const keys: Keys
    var addresses: AddressSet
    var addressCache: map<WalletAddress, Address>

    ghost predicate Valid()
      reads this
    {
      Genuine(scheme, addresses) && CacheIsDerived(scheme, addressCache)
    }

    ghost function Contents(): Book
      reads this, keys
    {
      Book(addresses, keys.lastUsedExternalIndex, keys.lastUsedInternalIndex)
    }

    constructor (scheme: Scheme, keys: Keys)
      ensures Valid() && this.scheme == scheme && this.keys == keys && addresses == map[]
    {
      this.scheme, this.keys := scheme, keys;
      addresses, addressCache := map[], map[];
    }

    method WalletAddressFromString(text: string) returns (r: Option<WalletAddress>)
      requires Valid()
      ensures r.Some? <==> text in addresses
      ensures r.Some? ==> r.value == addresses[text] && TextOf(scheme, r.value) == Ok(text)
    {
      r := if text in addresses then Some(addresses[text]) else None;
    }

    /** The same address whether or not it is cached, and whether or not it is to be. */
    method KaspaAddressFromWalletAddress(w: WalletAddress, shouldCache: bool) returns (r: Result<Address>)
      requires Valid()
      modifies this`addressCache
      ensures Valid() && r == Derived(scheme, w)
      ensures shouldCache && r.Ok? ==> addressCache == old(addressCache)[w := r.value]
      ensures !shouldCache || r.Err? ==> addressCache == old(addressCache)
    {
      if w in addressCache {
        r := Ok(addressCache[w]);
        assert addressCache == addressCache[w := r.value];
      } else {
        var path := CalculateAddressPath(scheme.IsMultisig(), w);
        if path.Err? {
          return Err(path.error);
        }
        r := Ok(scheme.addressAt(path.value));
        if shouldCache {
          addressCache := addressCache[w := r.value];
        }
      }
    }

    method NewAddress() returns (r: Result<(string, WalletAddress)>)
      requires Valid()
      modifies this, keys
      ensures Valid() && (Contents(), r) == NewReceiving(scheme, old(Contents()))
    {
      var previous := keys.lastUsedExternalIndex;
      keys.lastUsedExternalIndex := Next(previous);
      if previous == U32_MAX {
        return Err(Overflow);
      }
      var w := WalletAddress(previous + 1, scheme.cosignerIndex, External);
      var address := KaspaAddressFromWalletAddress(w, true);
      if address.Err? {
        return Err(address.error);
      }
      addresses := addresses[scheme.text(address.value) := w];
      r := Ok((scheme.text(address.value), w));
    }

    method ChangeAddress(useExisting: bool, from: seq<WalletAddress>) returns (r: Result<(Address, WalletAddress)>)
      requires Valid()
      modifies this, keys
      ensures Valid() && (Contents(), r) == ChangeFor(scheme, old(Contents()), useExisting, from)
    {
      var w: WalletAddress;
      if from != [] {
        w := from[0];
      } else {
        var index: U32 := 0;
        if !useExisting {
          var previous := keys.lastUsedInternalIndex;
          keys.lastUsedInternalIndex := Next(previous);
          if previous == U32_MAX {
            return Err(Overflow);
          }
          index := previous + 1;
        }
        w := WalletAddress(index, scheme.cosignerIndex, Internal);
      }
      var address := KaspaAddressFromWalletAddress(w, true);
      if address.Err? {
        return Err(address.error);
      }
      addresses := addresses[scheme.text(address.value) := w];
      r := Ok((address.value, w));
    }

    method AddressesToQuery(start: U32, end: U32) returns (r: Result<AddressSet>)
      requires Valid()
      modifies this`addressCache
      ensures Valid() && addressCache == old(addressCache)
      ensures r.Ok? && start <= end ==> AsksFor(scheme, start, end, r.value)
      ensures r.Ok? <==> start >= end || scheme.cosigners == 0 || end <= HARDENED
      ensures r.Err? ==> r.error == Bip32Derivation
    {
      var asked: AddressSet := map[];
      var index := start;
      while index < end
        invariant Valid() && addressCache == old(addressCache)
        invariant start <= index && (start <= end ==> index <= end)
        invariant Asks(scheme, start, index, 0, 0, asked)
      {
        var cosigner: U16 := 0;
        while cosigner < scheme.cosigners
          invariant Valid() && addressCache == old(addressCache)
          invariant cosigner <= scheme.cosigners
          invariant Asks(scheme, start, index, cosigner, 0, asked)
        {
          var keychains := [External, Internal];
          for k := 0 to 2
            invariant Valid() && addressCache == old(addressCache)
            invariant Asks(scheme, start, index, cosigner, k, asked)
          {
            var w := WalletAddress(index, cosigner, keychains[k]);
            var address := KaspaAddressFromWalletAddress(w, false);
            if address.Err? {
              return Err(address.error);
            }
            AskOneMore(scheme, start, w, asked);
            asked := asked[scheme.text(address.value) := w];
          }
          AskNext(scheme, start, index, cosigner, asked);
          cosigner := cosigner + 1;
        }
        AskNext(scheme, start, index, 0, asked);
        index := index + 1;
      }
      if start < end && scheme.cosigners > 0 {
        AskedIsUnhardened(scheme, start, end, asked);
      }
      r := Ok(asked);
    }

    /** The loop drops each used address from the set asked about, so a second mention traps. */
    method UpdateAddressesAndLastUsedIndexes(addressSet: AddressSet, response: seq<BalanceEntry>) returns (r: Outcome)
      requires Valid() && Genuine(scheme, addressSet)
      modifies this`addresses, keys
      ensures Absorbed(old(Contents()), addressSet, response)
        == match r { case Pass => Ok(Contents()) case Fail(e) => Err(e) }
      ensures r.Pass? ==> Valid()
    {
      ghost var before := Contents();
      var asked := addressSet;
      for i := 0 to |response|
        invariant Absorbed(before, addressSet, response) == Absorbed(Contents(), asked, response[i..])
      {
        var entry := response[i];
        assert response[i..][1..] == response[i + 1..];
        if entry.balance == Some(0) {
          continue;
        }
        if entry.address !in asked {
          return Fail(MissingElement);
        }
        var w := asked[entry.address];
        asked := asked - {entry.address};
        if w.keychain == External {
          if w.index > keys.lastUsedExternalIndex {
            keys.lastUsedExternalIndex := w.index;
          }
        } else if w.index > keys.lastUsedInternalIndex {
          keys.lastUsedInternalIndex := w.index;
        }
        addresses := addresses[entry.address := w];
      }
      AbsorbedFacts(before, addressSet, response);
      TookInGenuine(scheme, before, Contents(), addressSet, UsedTexts(response));
      r := Pass;
    }
  }
}
