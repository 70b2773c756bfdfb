/** The browser's `localStorage` as the session code uses it: string values under string
    keys, with the session token under one fixed key. */
module Storage {
  import opened Common

  /** The key the session token is stored under. */
  const TokenKey := "auth_token"

  /** `localStorage.getItem(key)`: `None` stands for `null`. */
  function GetItem(items: map<string, string>, key: string): Option<string>
  {
    if key in items then Some(items[key]) else None
  }

  /** The stored token, if any. */
  function StoredToken(items: map<string, string>): Option<string>
  {
    GetItem(items, TokenKey)
  }

  class LocalStorage {
    var items: map<string, string>

    constructor (initial: map<string, string>)
      ensures items == initial
    {
      items := initial;
    }

    /** `setItem`: the key now holds the value; every other key is untouched. */
    method SetItem(key: string, value: string)
      modifies this
      ensures items == old(items)[key := value]
      ensures GetItem(items, key) == Some(value)
    {
      items := items[key := value];
    }

    /** `removeItem`: the key is gone; every other key is untouched. */
    method RemoveItem(key: string)
      modifies this
      ensures items == old(items) - {key}
      ensures GetItem(items, key) == None
    {
      items := items - {key};
    }
  }
}
