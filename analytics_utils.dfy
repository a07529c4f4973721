/** The analytics SDK's helpers (its `utils.ts`): ids, session ids, UTM parameters, browser info. */
module AnalyticsUtils {
  import opened Wrappers
  import opened Text
  import opened Js
  import opened Browser
  import opened AnalyticsTypes

  /**
   * The supply behind `generateId()`: the n-th id drawn is `gen(n)`. The id
   * format (time stamp and random digits) is not modelled; every id is non-empty.
   */
  class IdSource {
    const gen: nat -> string
    var drawn: nat

    /** The n-th id of the supply. */
    function Id(n: nat): string {
      gen(n)
    }

    ghost predicate Valid() {
      forall n: nat :: Id(n) != ""
    }

    constructor (gen: nat -> string)
      requires forall n: nat :: gen(n) != ""
      ensures Valid() && this.gen == gen && drawn == 0
    {
      this.gen := gen;
      drawn := 0;
    }

    method GenerateId() returns (id: string)
      requires Valid()
      modifies this
      ensures id == Id(old(drawn)) && id != ""
      ensures drawn == old(drawn) + 1
    {
      id := gen(drawn);
      drawn := drawn + 1;
    }
  }

  const SessionKey := "__analytics_session_id__"
  const UtmStorageKey := "__analytics_utm_params__"

  /** The query names `extractUTMParams` looks for, in order. */
  const UtmKeys: seq<string> := ["utmSource", "utmMedium", "utmCampaign", "utmTerm", "utmContent"]

  /**
   * A get-or-create step on one localStorage key (`generateSessionId`,
   * `getOrCreateAnonymousId`) returns the id the key holds when that is
   * present, else `next`, the id it draws.
   */
  function IdFor(stored: Option<string>, next: string): string {
    if Present(stored) then stored.value else next
  }

  /** The number of ids such a step draws. */
  function DrawsFor(stored: Option<string>): nat {
    if Present(stored) then 0 else 1
  }

  /** localStorage after such a step on `key`: a drawn id is stored, a present one leaves it as it was. */
  function ItemsFor(items: map<string, string>, key: string, stored: Option<string>, id: string): map<string, string> {
    if Present(stored) then items else items[key := id]
  }

  /**
   * `generateSessionId()`: a non-empty stored session id is returned as it is;
   * otherwise a new id is drawn and, when a window exists, stored.
   */
  method GenerateSessionId(window: Window?, ids: IdSource) returns (id: string)
    requires ids.Valid()
    modifies ids, LocalFrame(window)
    ensures id != ""
    ensures Present(old(LocalItem(window, SessionKey))) ==>
      && id == old(LocalItem(window, SessionKey)).value
      && ids.drawn == old(ids.drawn)
      && unchanged(LocalFrame(window))
    ensures !Present(old(LocalItem(window, SessionKey))) ==>
      && id == ids.Id(old(ids.drawn))
      && ids.drawn == old(ids.drawn) + 1
      && (window != null ==> window.localStorage.items == old(window.localStorage.items)[SessionKey := id])
    ensures id == IdFor(old(LocalItem(window, SessionKey)), ids.Id(old(ids.drawn)))
    ensures ids.drawn == old(ids.drawn) + DrawsFor(old(LocalItem(window, SessionKey)))
    ensures window != null ==>
      window.localStorage.items == ItemsFor(old(window.localStorage.items), SessionKey, old(LocalItem(window, SessionKey)), id)
  {
    var existing := LocalItem(window, SessionKey);
    if Present(existing) {
      return existing.value;
    }
    id := ids.GenerateId();
    if window != null {
      window.localStorage.SetItem(SessionKey, id);
    }
  }

  /** Two calls in a row in a browser give the same session id and draw at most one new id. */
  method GenerateSessionIdTwice(window: Window, ids: IdSource) returns (first: string, second: string)
    requires ids.Valid()
    modifies ids, window.localStorage
    ensures first == second
    ensures ids.drawn <= old(ids.drawn) + 1
  {
    first := GenerateSessionId(window, ids);
    second := GenerateSessionId(window, ids);
  }

  /** `isSessionExpired(lastActivityTime, sessionTimeout)` evaluated at time `now`. */
  predicate IsSessionExpired(now: Time, lastActivityTime: Time, sessionTimeout: int) {
    now - lastActivityTime > sessionTimeout
  }

  /** Expiry is strict: a gap equal to the timeout keeps the session. */
  lemma ExpiryIsStrict(lastActivityTime: Time, sessionTimeout: int, gap: int)
    ensures IsSessionExpired(lastActivityTime + gap, lastActivityTime, sessionTimeout) <==> gap > sessionTimeout
    ensures !IsSessionExpired(lastActivityTime + sessionTimeout, lastActivityTime, sessionTimeout)
  {
  }

  /** The UTM object `extractUTMParams` builds from a query: each listed name whose value is non-empty. */
  function UtmFromQuery(q: Query): (p: UtmParams)
    ensures forall k | k in p :: k in UtmKeys
    ensures forall k | k in UtmKeys :: k in p <==> Present(QueryGet(q, k))
    ensures forall k | k in p :: Present(QueryGet(q, k)) && p[k] == QueryGet(q, k).value
  {
    map k | k in UtmKeys && Present(QueryGet(q, k)) :: QueryGet(q, k).value
  }

  /**
   * `extractUTMParams(url?)`. `url` is the parsed query of a non-empty url
   * argument; without one the window's own location is read.
   */
  method ExtractUTMParams(window: Window?, url: Option<Query>) returns (params: UtmParams)
    ensures window == null ==> params == map[]
    ensures window != null ==> params == UtmFromQuery(if url.Some? then url.value else window.search)
  {
    params := map[];
    if window == null {
      return;
    }
    var q := if url.Some? then url.value else window.search;
    var i := 0;
    while i < |UtmKeys|
      invariant 0 <= i <= |UtmKeys|
      invariant forall k | k in params :: k in UtmKeys[..i]
      invariant forall k | k in UtmKeys[..i] :: k in params <==> Present(QueryGet(q, k))
      invariant forall k | k in params :: Present(QueryGet(q, k)) && params[k] == QueryGet(q, k).value
    {
      var key := UtmKeys[i];
      var value := QueryGet(q, key);
      if Present(value) {
        params := params[key := value.value];
      }
      assert UtmKeys[..i + 1] == UtmKeys[..i] + [key];
      i := i + 1;
    }
    assert UtmKeys[..i] == UtmKeys;
  }

  /**
   * What `getStoredUTMParams()` returns for the current storage: nothing without
   * a window; the parsed stored object (or `{}` when it does not parse); or, on
   * a first visit, the parameters found in the window's query.
   */
  function StoredUtmParams(w: Window?, parse: string -> Option<UtmParams>): (p: UtmParams)
    reads LocalFrame(w)
    ensures w == null ==> p == map[]
    ensures w != null && !Present(w.localStorage.GetItem(UtmStorageKey)) ==> p == UtmFromQuery(w.search)
  {
    if w == null then map[]
    else
      var stored := w.localStorage.GetItem(UtmStorageKey);
      if Present(stored) then parse(stored.value).GetOr(map[]) else UtmFromQuery(w.search)
  }

  /**
   * The localStorage contents after `getStoredUTMParams()`: only on a first
   * visit whose query carries UTM parameters is anything written, and then only
   * the UTM key.
   */
  function UtmStored(items: map<string, string>, search: Query, stringify: UtmParams -> string)
    : (r: map<string, string>)
    ensures r - {UtmStorageKey} == items - {UtmStorageKey}
    ensures UtmStorageKey in items && items[UtmStorageKey] != "" ==> r == items
    ensures !(UtmStorageKey in items && items[UtmStorageKey] != "") ==>
      r == if |UtmFromQuery(search)| > 0 then items[UtmStorageKey := stringify(UtmFromQuery(search))] else items
  {
    if UtmStorageKey in items && items[UtmStorageKey] != "" then items
    else
      var extracted := UtmFromQuery(search);
      if |extracted| > 0 then items[UtmStorageKey := stringify(extracted)] else items
  }

  /**
   * `getStoredUTMParams()`. `parse` is `JSON.parse` of a stored UTM object
   * (None when it throws); `stringify` is `JSON.stringify`.
   */
  method GetStoredUTMParams(window: Window?, parse: string -> Option<UtmParams>, stringify: UtmParams -> string)
    returns (utm: UtmParams)
    modifies LocalFrame(window)
    ensures utm == old(StoredUtmParams(window, parse))
    ensures window == null ==> utm == map[]
    ensures window != null ==>
      window.localStorage.items == UtmStored(old(window.localStorage.items), window.search, stringify)
    ensures window != null && Present(old(window.localStorage.GetItem(UtmStorageKey))) ==>
      && utm == parse(old(window.localStorage.GetItem(UtmStorageKey)).value).GetOr(map[])
      && unchanged(window.localStorage)
    ensures window != null && !Present(old(window.localStorage.GetItem(UtmStorageKey))) ==>
      var extracted := UtmFromQuery(window.search);
      && utm == extracted
      && window.localStorage.items ==
           if |extracted| > 0 then old(window.localStorage.items)[UtmStorageKey := stringify(extracted)]
           else old(window.localStorage.items)
  {
    if window == null {
      return map[];
    }
    var stored := window.localStorage.GetItem(UtmStorageKey);
    if Present(stored) {
      return parse(stored.value).GetOr(map[]);
    }
    var extracted := ExtractUTMParams(window, None);
    if |extracted| > 0 {
      window.localStorage.SetItem(UtmStorageKey, stringify(extracted));
      return extracted;
    }
    return map[];
  }

  /** `getBrowserInfo()`. */
  function GetBrowserInfo(w: Window?): (info: BrowserInfo)
    ensures w == null ==> info == BrowserInfo("", "", "", "", "", "")
    ensures w != null ==>
      && info.userAgent == w.userAgent
      && info.language == (if w.language != "" then w.language
                           else if |w.languages| > 0 then w.languages[0] else "")
      && info.screenResolution == IntToString(w.screenWidth) + "x" + IntToString(w.screenHeight)
      && info.pageUrl == w.href && info.pageTitle == w.title && info.referrer == w.referrer
  {
    if w == null then BrowserInfo("", "", "", "", "", "")
    else
      var language := if w.language != "" then w.language
                      else if |w.languages| > 0 && w.languages[0] != "" then w.languages[0] else "";
      BrowserInfo(w.userAgent, language, IntToString(w.screenWidth) + "x" + IntToString(w.screenHeight),
                  w.href, w.title, w.referrer)
  }
}
