/** The browser's `localStorage`, as the client uses it: a string-to-string
    dictionary written and read by key. */
module LocalStorage {
  import opened Wrappers

  /** The key the access token is stored under. */
  const TokenKey: string := "token"
  /** The key the refresh token is stored under. */
  const RefreshTokenKey: string := "refreshToken"

  class Storage {
    var entries: map<string, string>

    constructor (initial: map<string, string>)
      ensures entries == initial
    {
      entries := initial;
    }

    /** `localStorage.getItem(key)`: `null` (here `None`) when the key is absent. */
    function GetItem(key: string): (r: Option<string>)
      reads this
      ensures r.Some? <==> key in entries
      ensures r.Some? ==> r.value == entries[key]
    {
      if key in entries then Some(entries[key]) else None
    }

    /** `localStorage.setItem(key, value)` */
    method SetItem(key: string, value: string)
      modifies this
      ensures entries == old(entries)[key := value]
    {
      entries := entries[key := value];
    }

    /** `localStorage.removeItem(key)`; removing an absent key changes nothing. */
    method RemoveItem(key: string)
      modifies this
      ensures entries == old(entries) - {key}
    {
      entries := entries - {key};
    }
  }

  /** The store with both session keys removed. */
  function WithoutTokens(entries: map<string, string>): (r: map<string, string>)
    ensures TokenKey !in r && RefreshTokenKey !in r
    ensures forall k :: k in entries && k != TokenKey && k != RefreshTokenKey ==> k in r && r[k] == entries[k]
    ensures r.Keys <= entries.Keys
  {
    entries - {TokenKey, RefreshTokenKey}
  }

  /** The store after writing a new token pair. */
  function WithTokens(entries: map<string, string>, access: string, refresh: string): (r: map<string, string>)
    ensures TokenKey in r && r[TokenKey] == access
    ensures RefreshTokenKey in r && r[RefreshTokenKey] == refresh
    ensures forall k :: k in entries && k != TokenKey && k != RefreshTokenKey ==> k in r && r[k] == entries[k]
    ensures r.Keys == entries.Keys + {TokenKey, RefreshTokenKey}
  {
    entries[TokenKey := access][RefreshTokenKey := refresh]
  }

  /** `if (!refreshToken)` fails: a refresh token is stored and is not the empty string. */
  predicate HasRefreshToken(entries: map<string, string>) {
    RefreshTokenKey in entries && entries[RefreshTokenKey] != ""
  }

  /** Clearing the session twice is the same as clearing it once. */
  lemma WithoutTokensIdempotent(entries: map<string, string>)
    ensures WithoutTokens(WithoutTokens(entries)) == WithoutTokens(entries)
  {
  }
}
