/**
 * `AuthManager` (`packages/core/src/client/auth.ts`): where the access token
 * is read from and written to.
 */
module Auth {
  import opened Wrappers
  import opened Js
  import opened Browser
  import opened CoreConfig

  /** The storage `getStorage()` selects; `NoStore` is its `null`. */
  datatype Store = LocalStore | SessionStore | MemoryStore | NoStore

  /** `config.tokenStorage || 'localStorage'`, then the `switch`. */
  function StorageChoice(tokenStorage: Option<string>): (s: Store)
    ensures s == LocalStore <==> !Present(tokenStorage) || tokenStorage.value == "localStorage"
    ensures s == SessionStore <==> tokenStorage == Some("sessionStorage")
    ensures s == MemoryStore <==> tokenStorage == Some("memory")
  {
    match OrElse(tokenStorage, "localStorage")
    case "localStorage" => LocalStore
    case "sessionStorage" => SessionStore
    case "memory" => MemoryStore
    case _ => NoStore
  }

  /** Only the four names the type allows select a store; `'custom'` and anything else select none. */
  lemma CustomSelectsNoStore(name: string)
    requires name != "" && name != "localStorage" && name != "sessionStorage" && name != "memory"
    ensures StorageChoice(Some(name)) == NoStore
  {
  }

  /** `config.tokenKey || 'access_token'`. */
  function TokenKey(config: SdkConfig): (k: string)
    ensures k != ""
    ensures Present(config.tokenKey) ==> k == config.tokenKey.value
    ensures !Present(config.tokenKey) ==> k == AccessTokenKey
  {
    OrElse(config.tokenKey, AccessTokenKey)
  }

  class AuthManager {
    const config: SdkConfig
    const window: Window?
    /** The private `memoryStorage` map. */
    var memoryStorage: map<string, string>
    /** The tokens handed to `customTokenSetter`, oldest first. */
    var customSetterCalls: seq<string>

    ghost predicate Valid() {
      window != null ==> window.Valid()
    }

    constructor (config: SdkConfig, window: Window?)
      requires window != null ==> window.Valid()
      ensures Valid() && this.config == config && this.window == window
      ensures memoryStorage == map[] && customSetterCalls == []
    {
      this.config := config;
      this.window := window;
      memoryStorage := map[];
      customSetterCalls := [];
    }

    /** The store `getStorage()` returns for this configuration; none without a window. */
    function SelectedStore(): (s: Store)
      ensures window == null ==> s == NoStore
      ensures window != null ==> s == StorageChoice(config.tokenStorage)
    {
      if window == null then NoStore else StorageChoice(config.tokenStorage)
    }

    /** The memory store's `getItem`: `this.memoryStorage.get(key) || null`. */
    function MemoryGet(key: string): (v: Option<string>)
      reads this
      ensures v.Some? <==> key in memoryStorage && memoryStorage[key] != ""
      ensures v.Some? ==> v.value == memoryStorage[key]
    {
      if key in memoryStorage && memoryStorage[key] != "" then Some(memoryStorage[key]) else None
    }

    /** `getToken()`. */
    function GetToken(): (t: Option<string>)
      reads this, StorageFrame(window)
      ensures config.customTokenGetter.Some? ==> t == config.customTokenGetter.value()
      ensures config.customTokenGetter.None? && SelectedStore() == NoStore ==> t == None
      ensures config.customTokenGetter.None? && SelectedStore() == MemoryStore ==> t == MemoryGet(TokenKey(config))
      ensures config.customTokenGetter.None? && SelectedStore() == LocalStore ==>
        t == window.localStorage.GetItem(TokenKey(config))
      ensures config.customTokenGetter.None? && SelectedStore() == SessionStore ==>
        t == window.sessionStorage.GetItem(TokenKey(config))
    {
      if config.customTokenGetter.Some? then config.customTokenGetter.value()
      else if window == null then None
      else
        match StorageChoice(config.tokenStorage)
        case LocalStore => window.localStorage.GetItem(TokenKey(config))
        case SessionStore => window.sessionStorage.GetItem(TokenKey(config))
        case MemoryStore => MemoryGet(TokenKey(config))
        case NoStore => None
    }

    /** What `getToken()` reads back from the selected store after `setToken(token)`. */
    function ReadBack(token: string): Option<string> {
      if SelectedStore() == MemoryStore && token == "" then None else Some(token)
    }

    /**
     * `setToken(token)`: a configured custom setter receives the token and no
     * store is written; otherwise the selected store, if any, holds it under the key.
     */
    method SetToken(token: string)
      requires Valid()
      modifies this, StorageFrame(window)
      ensures Valid()
      ensures config.hasCustomTokenSetter ==>
        && customSetterCalls == old(customSetterCalls) + [token]
        && memoryStorage == old(memoryStorage) && unchanged(StorageFrame(window))
      ensures !config.hasCustomTokenSetter ==> customSetterCalls == old(customSetterCalls)
      ensures !config.hasCustomTokenSetter ==> match SelectedStore()
        case LocalStore =>
          && window.localStorage.items == old(window.localStorage.items)[TokenKey(config) := token]
          && unchanged(window.sessionStorage) && memoryStorage == old(memoryStorage)
        case SessionStore =>
          && window.sessionStorage.items == old(window.sessionStorage.items)[TokenKey(config) := token]
          && unchanged(window.localStorage) && memoryStorage == old(memoryStorage)
        case MemoryStore =>
          memoryStorage == old(memoryStorage)[TokenKey(config) := token] && unchanged(StorageFrame(window))
        case NoStore =>
          memoryStorage == old(memoryStorage) && unchanged(StorageFrame(window))
      ensures !config.hasCustomTokenSetter && config.customTokenGetter.None? && SelectedStore() != NoStore ==>
        GetToken() == ReadBack(token)
    {
      if config.hasCustomTokenSetter {
        customSetterCalls := customSetterCalls + [token];
        return;
      }
      if window == null {
        return;
      }
      var key := TokenKey(config);
      match StorageChoice(config.tokenStorage)
      case LocalStore => window.localStorage.SetItem(key, token);
      case SessionStore => window.sessionStorage.SetItem(key, token);
      case MemoryStore => memoryStorage := memoryStorage[key := token];
      case NoStore =>
    }

    /**
     * `clearToken()`: removes the key from the selected store. Custom hooks
     * are not consulted, so a custom getter still answers afterwards.
     */
    method ClearToken()
      requires Valid()
      modifies this, StorageFrame(window)
      ensures Valid()
      ensures customSetterCalls == old(customSetterCalls)
      ensures match SelectedStore()
        case LocalStore =>
          && window.localStorage.items == old(window.localStorage.items) - {TokenKey(config)}
          && unchanged(window.sessionStorage) && memoryStorage == old(memoryStorage)
        case SessionStore =>
          && window.sessionStorage.items == old(window.sessionStorage.items) - {TokenKey(config)}
          && unchanged(window.localStorage) && memoryStorage == old(memoryStorage)
        case MemoryStore =>
          memoryStorage == old(memoryStorage) - {TokenKey(config)} && unchanged(StorageFrame(window))
        case NoStore =>
          memoryStorage == old(memoryStorage) && unchanged(StorageFrame(window))
      ensures config.customTokenGetter.None? ==> GetToken() == None
      ensures config.customTokenGetter.Some? ==> GetToken() == config.customTokenGetter.value()
    {
      if window == null {
        return;
      }
      var key := TokenKey(config);
      match StorageChoice(config.tokenStorage)
      case LocalStore => window.localStorage.RemoveItem(key);
      case SessionStore => window.sessionStorage.RemoveItem(key);
      case MemoryStore => memoryStorage := memoryStorage - {key};
      case NoStore =>
    }
  }

  /** In memory mode, `setToken(t)` then `getToken()` gives `t` back for a non-empty `t`, and null for `''`. */
  method MemoryRoundTrip(window: Window, t: string) returns (got: Option<string>)
    requires window.Valid()
    modifies StorageFrame(window)
    ensures got == (if t == "" then None else Some(t))
  {
    var config := SdkConfig(None, None, None, Some("memory"), None, None, false, None, None);
    var auth := new AuthManager(config, window);
    auth.SetToken(t);
    got := auth.GetToken();
  }

  /** Without a window or custom hooks no token is found, and `setToken` changes nothing. */
  method NoWindowNoToken(config: SdkConfig, t: string) returns (before: Option<string>, after: Option<string>)
    requires config.customTokenGetter.None? && !config.hasCustomTokenSetter
    ensures before == None && after == None
  {
    var auth := new AuthManager(config, null);
    before := auth.GetToken();
    auth.SetToken(t);
    after := auth.GetToken();
  }
}
