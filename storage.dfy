/** The browser's `localStorage`, as the two client files use it: a map from
    key to string value, where an absent key reads back as `null`. */
module BrowserStorage {
  import opened Wrappers

  type Store = map<string, string>

  /** The key holding the bearer token. */
  const TokenKey: string := "token"
  /** The key holding the display email of the signed-in user. */
  const EmailKey: string := "userEmail"

  /** `localStorage.getItem(key)`: the stored value, or `null` when absent. */
  function GetItem(store: Store, key: string): (v: Option<string>)
    ensures v.Some? <==> key in store
    ensures v.Some? ==> store[key] == v.value
  {
    if key in store then Some(store[key]) else None
  }

  /** The two `removeItem` calls that drop the persisted session. */
  function RemoveSession(store: Store): (r: Store)
    ensures TokenKey !in r && EmailKey !in r
    ensures forall k :: k in store && k != TokenKey && k != EmailKey ==> k in r && r[k] == store[k]
    ensures r.Keys <= store.Keys
  {
    store - {TokenKey} - {EmailKey}
  }
}
