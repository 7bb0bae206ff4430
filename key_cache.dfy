/**
 * The API-key cache in the browser's `localStorage` (App.tsx): the key and the
 * time it was stored, under two entries, valid for 24 hours.
 */
module KeyCache {
  import opened Wrappers
  import Js

  const StorageKey: string := "hr_magnet_api_key"
  const TimestampKey: string := "hr_magnet_api_key_time"
  /** 24 hours in milliseconds. */
  const ExpiryMs: nat := 24 * 60 * 60 * 1000

  /** `localStorage` as a map from entry names to strings. */
  type Storage = map<string, string>

  /** `localStorage.getItem(key)`: `null` (here `None`) when the entry is absent. */
  function GetItem(store: Storage, key: string): (r: Option<string>)
    ensures r.None? <==> key !in store
    ensures r.Some? ==> r.value == store[key]
  {
    if key in store then Some(store[key]) else None
  }

  /** What the mount effect does with the stored entries. */
  datatype Load =
    | Restore(key: string)   // put the stored key into the component state
    | Purge                  // remove both entries
    | Keep                   // do nothing

  /**
   * The mount effect at time `now`: with both entries non-empty, restore the
   * key when `now - parseInt(time)` is under 24 hours and purge otherwise
   * (an unparsable time compares as `NaN`, which is never under anything);
   * with either entry absent or empty, do nothing.
   */
  function OnMount(store: Storage, now: int): (r: Load)
    ensures r.Keep? <==> !Js.Truthy(GetItem(store, StorageKey)) || !Js.Truthy(GetItem(store, TimestampKey))
    ensures r.Restore? <==>
      && Js.Truthy(GetItem(store, StorageKey))
      && Js.Truthy(GetItem(store, TimestampKey))
      && Js.ParseInt(store[TimestampKey]).Some?
      && now - Js.ParseInt(store[TimestampKey]).value < ExpiryMs
    ensures r.Restore? ==> r.key == store[StorageKey] && r.key != ""
  {
    var savedKey, savedTime := GetItem(store, StorageKey), GetItem(store, TimestampKey);
    if Js.Truthy(savedKey) && Js.Truthy(savedTime) then
      var time := Js.ParseInt(savedTime.value);
      if time.Some? && now - time.value < ExpiryMs then Restore(savedKey.value) else Purge
    else Keep
  }

  /** The storage after the mount effect. */
  function StorageAfter(store: Storage, load: Load): (r: Storage)
    ensures load.Purge? ==> StorageKey !in r && TimestampKey !in r
    ensures forall k :: k != StorageKey && k != TimestampKey ==> GetItem(r, k) == GetItem(store, k)
    ensures !load.Purge? ==> r == store
  {
    if load.Purge? then store - {StorageKey, TimestampKey} else store
  }

  /** `handleApiKeyChange`'s two `setItem` calls at time `now`. */
  function StoreKey(store: Storage, value: string, now: nat): (r: Storage)
    ensures GetItem(r, StorageKey) == Some(value)
    ensures GetItem(r, TimestampKey) == Some(Js.NatToString(now))
    ensures forall k :: k != StorageKey && k != TimestampKey ==> GetItem(r, k) == GetItem(store, k)
  {
    store[StorageKey := value][TimestampKey := Js.NatToString(now)]
  }

  /**
   * A non-empty key stored at time `t` is restored by a mount effect before
   * `t + 24h` and purged from then on.
   */
  lemma StoreThenLoad(store: Storage, value: string, t: nat, now: int)
    requires value != ""
    ensures now < t + ExpiryMs ==> OnMount(StoreKey(store, value, t), now) == Restore(value)
    ensures now >= t + ExpiryMs ==> OnMount(StoreKey(store, value, t), now) == Purge
  {
    var s := StoreKey(store, value, t);
    Js.ParseIntNatToString(t);
    assert s[TimestampKey] == Js.NatToString(t);
  }

  /** An empty key (the field was cleared) is stored, and the mount effect then leaves everything as it is. */
  lemma StoreEmptyThenLoad(store: Storage, t: nat, now: int)
    ensures OnMount(StoreKey(store, "", t), now) == Keep
  {
  }
}
