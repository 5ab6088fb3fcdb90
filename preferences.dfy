/** The application's `SharedPreferences` store, seen as the string settings it holds. */
module Preferences {

  type Store = map<string, string>

  /** `getString(key, default)`: the stored value, or `default` when the key is absent. */
  function GetString(store: Store, key: string, default: string): string
  {
    if key in store then store[key] else default
  }
}
