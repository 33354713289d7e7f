/** The check every handler makes first, and the handlers that deal in addresses
    (daemon/src/service/common.rs, new_address.rs, get_addresses.rs). */
module Handlers {
  import opened Wrappers
  import opened Model
  import opened AddressBook
  import opened SyncManager

  method CheckIsSynced(m: SyncManager) returns (r: Outcome)
    ensures r == if m.IsSynced() then Pass else Fail(NotYetSynced)
  {
    r := if m.IsSynced() then Pass else Fail(NotYetSynced);
  }

  /** A new receiving address, from a wallet in sync. The check rules out the wrap of the counter. */
  method NewAddress(m: SyncManager) returns (r: Result<string>)
    requires m.addressManager.Valid()
    modifies m.addressManager, m.addressManager.keys
    ensures m.addressManager.Valid()
    ensures !old(m.IsSynced()) ==>
      r == Err(NotYetSynced) && m.addressManager.Contents() == old(m.addressManager.Contents())
    ensures old(m.IsSynced()) ==>
      var (book, made) := NewReceiving(m.addressManager.scheme, old(m.addressManager.Contents()));
      && m.addressManager.Contents() == book && Grows(old(m.addressManager.Contents()), book)
      && r == match made { case Ok((text, _)) => Ok(text) case Err(e) => Err(e) }
  {
    var synced := CheckIsSynced(m);
    if synced.Fail? {
      return Err(synced.error);
    }
    var made := m.addressManager.NewAddress();
    if made.Err? {
      return Err(made.error);
    }
    r := Ok(made.value.0);
  }

  /** The receiving addresses handed out so far, from index 1 on. It cannot fail in a wallet in sync
      whose scan has stayed below the hardened indexes, as `Discovery` shows that it does. */
  method GetAddresses(m: SyncManager) returns (r: Result<seq<string>>)
    requires m.addressManager.Valid()
    modifies m.addressManager`addressCache
    ensures m.addressManager.Valid()
    ensures !m.IsSynced() ==> r == Err(NotYetSynced)
    ensures m.IsSynced() && m.nextSyncStartIndex <= HARDENED ==> r.Ok?
    ensures r.Ok? ==>
      && |r.value| == m.addressManager.keys.lastUsedExternalIndex
      && var s := m.addressManager.scheme;
      && forall i :: 0 <= i < |r.value| ==>
           TextOf(s, WalletAddress(i + 1, s.cosignerIndex, External)) == Ok(r.value[i])
  {
    var synced := CheckIsSynced(m);
    if synced.Fail? {
      return Err(synced.error);
    }
    var texts: seq<string> := [];
    for i := 1 to m.addressManager.keys.lastUsedExternalIndex + 1
      invariant m.addressManager.Valid() && |texts| == i - 1
      invariant forall j :: 0 <= j < |texts| ==> TextOf(m.addressManager.scheme, Receiving(m, j + 1)) == Ok(texts[j])
    {
      var address := m.addressManager.KaspaAddressFromWalletAddress(Receiving(m, i), true);
      if address.Err? {
        return Err(address.error);
      }
      texts := texts + [m.addressManager.scheme.text(address.value)];
    }
    r := Ok(texts);
  }

  function Receiving(m: SyncManager, index: nat): WalletAddress
    requires index <= U32_MAX
  {
    WalletAddress(index, m.addressManager.scheme.cosignerIndex, External)
  }
}
