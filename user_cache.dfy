/**
 * The cached-user helpers (`packages/core/src/utils/user-cache.ts`): the
 * cached user is trusted only while it belongs to the token's user. Each hook
 * of `UserCacheConfig` is either the caller's (its answer, or the fact that it
 * was called, is what the model records) or the localStorage default.
 */
module UserCache {
  import opened Wrappers
  import opened Js
  import opened Browser
  import opened Jwt

  const UserKey := "user"
  const UserIdKey := "user_id"

  /** `UserCacheConfig`: the getters a caller supplies, and which effectful hooks a caller supplies. */
  datatype UserCacheConfig = UserCacheConfig(
    tokenGetter: Option<() -> Option<string>>,
    userGetter: Option<() -> Option<string>>,
    userIdGetter: Option<() -> Option<string>>,
    hasUserSetter: bool,
    hasUserIdSetter: bool,
    hasClearCache: bool)

  const NoHooks := UserCacheConfig(None, None, None, false, false, false)

  /** A getter's answer: the caller's getter, or `localStorage.getItem(key)`. */
  function Read(window: Window?, getter: Option<() -> Option<string>>, key: string): (v: Option<string>)
    reads LocalFrame(window)
    ensures getter.Some? ==> v == getter.value()
    ensures getter.None? ==> v == LocalItem(window, key)
  {
    if getter.Some? then getter.value() else LocalItem(window, key)
  }

  /** The outcome of `validateAndGetCachedUser`: the user returned, and whether `clearCache` ran. */
  datatype CacheDecision = CacheDecision(user: Option<JsValue>, clear: bool)

  /** The userId of the token, as `getUserIdFromToken(getToken)` finds it for a non-empty token. */
  function TokenUserId(token: string, atob: string -> Option<string>, jsonParse: string -> Option<JsValue>)
    : Option<string>
  {
    ParseUserIdFromToken(token, atob, jsonParse)
  }

  /** The decision `validateAndGetCachedUser` takes in a browser, from what the three getters return. */
  function Validate(token: Option<string>, savedUser: Option<string>, savedUserId: Option<string>,
                    atob: string -> Option<string>, jsonParse: string -> Option<JsValue>)
    : (d: CacheDecision)
    ensures d.user.Some? ==> !d.clear
    ensures !Present(token) ==> d == CacheDecision(None, true)
    ensures d.user.Some? <==>
      && Present(token) && Present(savedUser)
      && var uid := TokenUserId(token.value, atob, jsonParse);
      && uid.Some? && savedUserId == Some(uid.value)
      && jsonParse(savedUser.value).Some?
      && Get(jsonParse(savedUser.value).value, "userId") == Some(Str(uid.value))
    ensures d.user.Some? ==> d.user == jsonParse(savedUser.value)
    ensures Present(token) && TokenUserId(token.value, atob, jsonParse).None? ==> d == CacheDecision(None, true)
    ensures Present(token) && Present(savedUserId) && TokenUserId(token.value, atob, jsonParse) != Some(savedUserId.value)
      ==> d == CacheDecision(None, true)
    ensures Present(token) && TokenUserId(token.value, atob, jsonParse).Some? && !Present(savedUserId)
      ==> d == CacheDecision(None, false)
    ensures Present(token) && TokenUserId(token.value, atob, jsonParse).Some?
            && savedUserId == Some(TokenUserId(token.value, atob, jsonParse).value) && !Present(savedUser)
      ==> d == CacheDecision(None, false)
  {
    if !Present(token) then CacheDecision(None, true)
    else
      var uid := TokenUserId(token.value, atob, jsonParse);
      if uid.None? || (Present(savedUserId) && savedUserId.value != uid.value) then CacheDecision(None, true)
      else if Present(savedUser) && savedUserId == Some(uid.value) then
        match jsonParse(savedUser.value)
        case None => CacheDecision(None, true)
        case Some(parsed) =>
          // `parsedUser.userId` on a parsed `null` throws, and the catch clears the cache.
          if Get(parsed, "userId") == Some(Str(uid.value)) then CacheDecision(Some(parsed), false)
          else CacheDecision(None, true)
      else CacheDecision(None, false)
  }

  /** A cached user whose text does not parse, or whose `userId` is not the token's, is dropped. */
  lemma MismatchedCachedUserIsCleared(token: string, savedUser: string, uid: string,
                                      atob: string -> Option<string>, jsonParse: string -> Option<JsValue>)
    requires token != "" && savedUser != "" && TokenUserId(token, atob, jsonParse) == Some(uid)
    requires jsonParse(savedUser).None? || Get(jsonParse(savedUser).value, "userId") != Some(Str(uid))
    ensures Validate(Some(token), Some(savedUser), Some(uid), atob, jsonParse) == CacheDecision(None, true)
  {
  }

  /** The default `clearCache`: remove `user`, then `user_id`. */
  method DefaultClear(window: Window)
    modifies window.localStorage
    ensures window.localStorage.items == old(window.localStorage.items) - {UserKey, UserIdKey}
  {
    window.localStorage.RemoveItem(UserKey);
    window.localStorage.RemoveItem(UserIdKey);
  }

  /**
   * `validateAndGetCachedUser(config)`. `customClearCalls` counts the runs of
   * a caller's `clearCache`; the default one edits localStorage instead.
   */
  method ValidateAndGetCachedUser(window: Window?, config: UserCacheConfig,
                                  atob: string -> Option<string>, jsonParse: string -> Option<JsValue>)
    returns (user: Option<JsValue>, customClearCalls: nat)
    modifies LocalFrame(window)
    ensures window == null ==> user == None && customClearCalls == 0 && unchanged(LocalFrame(window))
    ensures window != null ==>
      var d := old(Validate(Read(window, config.tokenGetter, AccessTokenKey), Read(window, config.userGetter, UserKey),
                            Read(window, config.userIdGetter, UserIdKey), atob, jsonParse));
      && user == d.user
      && customClearCalls == (if d.clear && config.hasClearCache then 1 else 0)
      && window.localStorage.items ==
           if d.clear && !config.hasClearCache then old(window.localStorage.items) - {UserKey, UserIdKey}
           else old(window.localStorage.items)
  {
    customClearCalls := 0;
    if window == null {
      return None, 0;
    }
    var token := Read(window, config.tokenGetter, AccessTokenKey);
    var savedUser := Read(window, config.userGetter, UserKey);
    var savedUserId := Read(window, config.userIdGetter, UserIdKey);
    var d := Validate(token, savedUser, savedUserId, atob, jsonParse);
    user := d.user;
    if d.clear {
      if config.hasClearCache {
        customClearCalls := 1;
      } else {
        DefaultClear(window);
      }
    }
  }

  /** `clearUserCache(config)`: nothing without a window; otherwise the caller's hook or the default removal. */
  method ClearUserCache(window: Window?, config: UserCacheConfig) returns (customClearCalled: bool)
    modifies LocalFrame(window)
    ensures customClearCalled <==> window != null && config.hasClearCache
    ensures window != null && !config.hasClearCache ==>
      window.localStorage.items == old(window.localStorage.items) - {UserKey, UserIdKey}
    ensures window == null || config.hasClearCache ==> unchanged(LocalFrame(window))
  {
    if window == null {
      return false;
    }
    if config.hasClearCache {
      return true;
    }
    DefaultClear(window);
    customClearCalled := false;
  }

  /**
   * `saveUserCache(userInfo, config)`: the user record, then its `userId`.
   * `userInfo.userId` is a string by the `UserInfo` type. The outputs are
   * what the caller's setters, if any, were handed.
   */
  method SaveUserCache(window: Window?, config: UserCacheConfig, userInfo: JsValue, userId: string,
                       stringify: JsValue -> string)
    returns (handedUser: Option<JsValue>, handedUserId: Option<string>)
    requires Get(userInfo, "userId") == Some(Str(userId))
    modifies LocalFrame(window)
    ensures window == null ==> handedUser == None && handedUserId == None && unchanged(LocalFrame(window))
    ensures window != null ==>
      && handedUser == (if config.hasUserSetter then Some(userInfo) else None)
      && handedUserId == (if config.hasUserIdSetter then Some(userId) else None)
      && window.localStorage.items ==
           var afterUser := if config.hasUserSetter then old(window.localStorage.items)
                            else old(window.localStorage.items)[UserKey := stringify(userInfo)];
           if config.hasUserIdSetter then afterUser else afterUser[UserIdKey := userId]
  {
    handedUser, handedUserId := None, None;
    if window == null {
      return;
    }
    if config.hasUserSetter {
      handedUser := Some(userInfo);
    } else {
      window.localStorage.SetItem(UserKey, stringify(userInfo));
    }
    if config.hasUserIdSetter {
      handedUserId := Some(userId);
    } else {
      window.localStorage.SetItem(UserIdKey, userId);
    }
  }

  /** `checkHasToken(tokenGetter?)`: a non-empty token is found. */
  function CheckHasToken(window: Window?, tokenGetter: Option<() -> Option<string>>): (b: bool)
    reads LocalFrame(window)
    ensures window == null ==> !b
    ensures window != null ==> (b <==> Present(Read(window, tokenGetter, AccessTokenKey)))
  {
    window != null && Present(Read(window, tokenGetter, AccessTokenKey))
  }

  /**
   * With the default hooks, a user saved under the token's userId is found
   * again, provided its stored text parses back to it.
   */
  method SaveThenValidate(window: Window, userInfo: JsValue, userId: string, stringify: JsValue -> string,
                          atob: string -> Option<string>, jsonParse: string -> Option<JsValue>)
    returns (user: Option<JsValue>)
    requires Get(userInfo, "userId") == Some(Str(userId))
    requires jsonParse(stringify(userInfo)) == Some(userInfo)
    requires Present(window.localStorage.GetItem(AccessTokenKey))
    requires TokenUserId(window.localStorage.GetItem(AccessTokenKey).value, atob, jsonParse) == Some(userId)
    requires stringify(userInfo) != ""
    modifies window.localStorage
    ensures user == Some(userInfo)
  {
    var _, _ := SaveUserCache(window, NoHooks, userInfo, userId, stringify);
    var calls;
    user, calls := ValidateAndGetCachedUser(window, NoHooks, atob, jsonParse);
  }
}
