/**
  The admin token slot (lib/auth.ts): one key of the browser's local storage.
  Outside a browser there is no storage at all, so writes do nothing and reads
  find nothing.
 */
module Auth {
  import opened Wrappers

  /** Where the code runs. In a browser, local storage maps string keys to string values. */
  datatype Host = Server | Browser(storage: map<string, string>)

  /** The one storage key the token lives under. */
  const TokenKey: string := "admin_token"

  /** `auth.getToken()`: the stored token, or `null`. */
  function GetToken(host: Host): (r: Option<string>)
    ensures host.Server? ==> r == None
    ensures host.Browser? ==> (r.Some? <==> TokenKey in host.storage)
    ensures r.Some? ==> host.Browser? && TokenKey in host.storage && r.value == host.storage[TokenKey]
  {
    match host
    case Server => None
    case Browser(storage) => if TokenKey in storage then Some(storage[TokenKey]) else None
  }

  /** `auth.setToken(token)`: overwrite the slot; every other key is left alone. */
  function SetToken(host: Host, token: string): (r: Host)
    ensures host.Server? ==> r == Server
    ensures host.Browser? ==> r.Browser? && GetToken(r) == Some(token)
    ensures host.Browser? ==> r.storage.Keys == host.storage.Keys + {TokenKey}
    ensures host.Browser? ==> forall k :: k in host.storage && k != TokenKey ==> r.storage[k] == host.storage[k]
  {
    match host
    case Server => Server
    case Browser(storage) => Browser(storage[TokenKey := token])
  }

  /** `auth.removeToken()`: empty the slot; every other key is left alone. */
  function RemoveToken(host: Host): (r: Host)
    ensures GetToken(r) == None
    ensures host.Server? ==> r == Server
    ensures host.Browser? ==> r.Browser? && r.storage.Keys == host.storage.Keys - {TokenKey}
    ensures host.Browser? ==> forall k :: k in r.storage ==> r.storage[k] == host.storage[k]
  {
    match host
    case Server => Server
    case Browser(storage) => Browser(storage - {TokenKey})
  }

  /** `auth.isAuthenticated()`: `!!auth.getToken()`, so an empty token does not count. */
  predicate IsAuthenticated(host: Host)
  {
    var token := GetToken(host);
    token.Some? && token.value != ""
  }

  /** The gate in terms of storage alone: a browser whose slot holds a non-empty string. */
  lemma AuthenticatedIff(host: Host)
    ensures IsAuthenticated(host) <==>
              host.Browser? && TokenKey in host.storage && host.storage[TokenKey] != ""
  {
  }

  /** A later `setToken` overwrites an earlier one: only the last token survives. */
  lemma LastSetWins(host: Host, first: string, second: string)
    ensures SetToken(SetToken(host, first), second) == SetToken(host, second)
  {
    if host.Browser? {
      assert SetToken(SetToken(host, first), second).storage == host.storage[TokenKey := second];
    }
  }

  /** After `setToken(t)` the gate opens exactly when running in a browser and `t` is non-empty. */
  lemma SetThenAuthenticated(host: Host, token: string)
    ensures IsAuthenticated(SetToken(host, token)) <==> host.Browser? && token != ""
  {
  }

  /** After `removeToken` the slot is empty and the gate is closed. */
  lemma RemoveThenSignedOut(host: Host)
    ensures GetToken(RemoveToken(host)) == None
    ensures !IsAuthenticated(RemoveToken(host))
  {
  }

  /** Removing twice is the same as removing once. */
  lemma RemoveIdempotent(host: Host)
    ensures RemoveToken(RemoveToken(host)) == RemoveToken(host)
  {
    if host.Browser? {
      assert host.storage - {TokenKey} - {TokenKey} == host.storage - {TokenKey};
    }
  }

  /** Outside a browser every operation is inert and the gate stays closed. */
  lemma ServerIsInert(token: string)
    ensures SetToken(Server, token) == Server
    ensures RemoveToken(Server) == Server
    ensures GetToken(Server) == None && !IsAuthenticated(Server)
  {
  }
}
