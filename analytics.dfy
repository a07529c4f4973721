/**
 * The analytics client (`analytics.ts`): configuration defaults, identity and
 * session stamping, `track`, `identify`, `reset`, `destroy`, and the mapping of
 * a batch to the collector's wire records. `fetch`, DOM listeners and debug
 * logging are not part of this model.
 */
module Sdk {
  import opened Wrappers
  import opened Text
  import opened Js
  import opened Browser
  import opened AnalyticsTypes
  import opened AnalyticsUtils
  import opened Queue

  const AnonymousIdKey := "__analytics_anonymous_id__"
  const BatchPath := "/v1/analytics/events/batch"

  /** The three localStorage keys the client writes are distinct. */
  lemma StorageKeysDistinct()
    ensures UtmStorageKey != SessionKey && UtmStorageKey != AnonymousIdKey && SessionKey != AnonymousIdKey
  {
    assert UtmStorageKey[12] != SessionKey[12] && UtmStorageKey[12] != AnonymousIdKey[12];
    assert SessionKey[12] != AnonymousIdKey[12];
  }

  /** Writing back the value a key already holds leaves the map as it was. */
  lemma UpdateWithStored(items: map<string, string>, key: string, v: string)
    ensures key in items && items[key] == v ==> items[key := v] == items
  {
  }

  /** `Required<AnalyticsConfig>` after defaults are applied. */
  datatype Config = Config(
    apiUrl: string,
    appId: string,
    userId: string,
    autoTrackPageView: bool,
    autoTrackClick: bool,
    batchInterval: int,
    batchSize: int,
    sessionTimeout: int,
    debug: bool)

  /** `n || d` for an optional number. */
  function NumberOr(o: Option<int>, d: int): (r: int)
    ensures o.Some? && o.value != 0 ==> r == o.value
    ensures (o.None? || o.value == 0) ==> r == d
  {
    if o.Some? && o.value != 0 then o.value else d
  }

  /** The constructor's defaults: a missing or falsy value is replaced; `autoTrackPageView` only by an explicit `false`. */
  function WithDefaults(c: AnalyticsConfig): (r: Config)
    ensures r.apiUrl == c.apiUrl && r.appId == c.appId
    ensures r.userId == OrElse(c.userId, "")
    ensures r.autoTrackPageView <==> c.autoTrackPageView != Some(false)
    ensures r.autoTrackClick <==> c.autoTrackClick == Some(true)
    ensures r.debug <==> c.debug == Some(true)
    ensures r.batchInterval == NumberOr(c.batchInterval, 5000)
    ensures r.batchSize == NumberOr(c.batchSize, 10)
    ensures r.sessionTimeout == NumberOr(c.sessionTimeout, 30 * 60 * 1000)
  {
    Config(
      c.apiUrl, c.appId, OrElse(c.userId, ""),
      c.autoTrackPageView != Some(false),
      c.autoTrackClick.GetOr(false),
      NumberOr(c.batchInterval, 5000),
      NumberOr(c.batchSize, 10),
      NumberOr(c.sessionTimeout, 30 * 60 * 1000),
      c.debug.GetOr(false))
  }

  /** A resolved configuration, given back as a user configuration. */
  function AsUserConfig(r: Config): AnalyticsConfig {
    AnalyticsConfig(r.apiUrl, r.appId, Some(r.userId), Some(r.autoTrackPageView), Some(r.autoTrackClick),
                    Some(r.batchInterval), Some(r.batchSize), Some(r.sessionTimeout), Some(r.debug))
  }

  /** Applying the defaults to an already resolved configuration changes nothing. */
  lemma DefaultsAreIdempotent(c: AnalyticsConfig)
    ensures WithDefaults(AsUserConfig(WithDefaults(c))) == WithDefaults(c)
  {
  }

  /** With nothing configured: batches of 10 every 5 s, 30 min sessions, no user, page views tracked. */
  lemma EmptyConfigDefaults(apiUrl: string, appId: string)
    ensures var r := WithDefaults(AnalyticsConfig(apiUrl, appId, None, None, None, None, None, None, None));
      && r.batchSize == 10 && r.batchInterval == 5000 && r.sessionTimeout == 1800000
      && r.userId == "" && r.autoTrackPageView && !r.autoTrackClick && !r.debug
  {
  }

  function Lookup(m: UtmParams, key: string): Option<string> {
    if key in m then Some(m[key]) else None
  }

  /** The options `trackPageView(properties)` hands to `track`: only the event name and the properties. */
  function PageViewOptions(properties: Option<Properties>): TrackEventOptions {
    TrackEventOptions("page_view", properties, None, None, None, None, None, None, None)
  }

  /**
   * The record `track` builds before `enqueue`: each identity and page field is
   * the option when it is a non-empty string and the default otherwise.
   */
  function Decorate(o: TrackEventOptions, userId: string, sessionId: string, anonymousId: string,
                    info: BrowserInfo, utm: UtmParams, now: Time): (d: EventDraft)
    ensures d.fields.eventName == o.eventName
    ensures d.fields.properties == Some(if o.properties.Some? then o.properties.value else map[])
    ensures Present(o.userId) ==> d.fields.userId == o.userId
    ensures !Present(o.userId) ==> d.fields.userId == Some(userId)
    ensures Present(o.sessionId) ==> d.fields.sessionId == o.sessionId
    ensures !Present(o.sessionId) ==> d.fields.sessionId == Some(sessionId)
    ensures Present(o.anonymousId) ==> d.fields.anonymousId == o.anonymousId
    ensures !Present(o.anonymousId) ==> d.fields.anonymousId == Some(anonymousId)
    ensures Present(o.pageUrl) ==> d.fields.pageUrl == o.pageUrl
    ensures !Present(o.pageUrl) ==> d.fields.pageUrl == Some(info.pageUrl)
    ensures Present(o.pageTitle) ==> d.fields.pageTitle == o.pageTitle
    ensures !Present(o.pageTitle) ==> d.fields.pageTitle == Some(info.pageTitle)
    ensures Present(o.referrer) ==> d.fields.referrer == o.referrer
    ensures !Present(o.referrer) ==> d.fields.referrer == Some(info.referrer)
    ensures d.fields.utmSource == Lookup(utm, "utm_source") && d.fields.utmMedium == Lookup(utm, "utm_medium")
    ensures d.fields.utmCampaign == Lookup(utm, "utm_campaign") && d.fields.utmTerm == Lookup(utm, "utm_term")
    ensures d.fields.utmContent == Lookup(utm, "utm_content")
    ensures d.fields.userAgent == Some(info.userAgent) && d.fields.language == Some(info.language)
    ensures d.fields.screenResolution == Some(info.screenResolution)
    ensures d.timestamp == Some(if o.timestamp.Some? then o.timestamp.value else now)
  {
    EventDraft(
      EventFields(
        o.eventName,
        Some(o.properties.GetOr(map[])),
        Some(OrElse(o.userId, userId)),
        Some(OrElse(o.sessionId, sessionId)),
        Some(OrElse(o.anonymousId, anonymousId)),
        Some(OrElse(o.pageUrl, info.pageUrl)),
        Some(OrElse(o.pageTitle, info.pageTitle)),
        Some(OrElse(o.referrer, info.referrer)),
        Lookup(utm, "utm_source"), Lookup(utm, "utm_medium"), Lookup(utm, "utm_campaign"),
        Lookup(utm, "utm_term"), Lookup(utm, "utm_content"),
        Some(info.userAgent), Some(info.language), Some(info.screenResolution)),
      Some(o.timestamp.GetOr(now)))
  }

  /** The event `trackPageView()` with no properties queues: the decorated `page_view` record, stamped. */
  function PageViewEvent(userId: string, sessionId: string, anonymousId: string, info: BrowserInfo,
                         utm: UtmParams, now: Time, id: string): PendingEvent
  {
    Stamp(Decorate(PageViewOptions(None), userId, sessionId, anonymousId, info, utm, now), id, now)
  }

  /**
   * Parameters `extractUTMParams` finds in the URL are stored under their query
   * names (`utmSource`, ...), while `track` reads `utm_source`, ...: on a first
   * visit the tracked event carries no UTM field.
   */
  lemma FirstVisitUtmNotForwarded(o: TrackEventOptions, userId: string, sessionId: string, anonymousId: string,
                                  info: BrowserInfo, q: Query, now: Time)
    ensures var f := Decorate(o, userId, sessionId, anonymousId, info, UtmFromQuery(q), now).fields;
      f.utmSource == None && f.utmMedium == None && f.utmCampaign == None && f.utmTerm == None && f.utmContent == None
  {
    var p := UtmFromQuery(q);
    assert "utm_source" !in p && "utm_medium" !in p && "utm_campaign" !in p;
    assert "utm_term" !in p && "utm_content" !in p;
  }

  /** The timestamp a caller passes to `track` is replaced by the enqueue time. */
  lemma TrackTimestampIsEnqueueTime(o: TrackEventOptions, userId: string, sessionId: string, anonymousId: string,
                                    info: BrowserInfo, utm: UtmParams, trackedAt: Time, id: string, enqueuedAt: Time)
    ensures Stamp(Decorate(o, userId, sessionId, anonymousId, info, utm, trackedAt), id, enqueuedAt).timestamp == enqueuedAt
  {
  }

  /** One event as the collector receives it. */
  datatype WireEvent = WireEvent(
    appId: string,
    eventName: string,
    userId: string,
    sessionId: Option<string>,
    anonymousId: Option<string>,
    pageUrl: Option<string>,
    pageTitle: Option<string>,
    referrer: Option<string>,
    utmSource: Option<string>,
    utmMedium: Option<string>,
    utmCampaign: Option<string>,
    utmTerm: Option<string>,
    utmContent: Option<string>,
    userAgent: Option<string>,
    ip: string,
    language: Option<string>,
    screenResolution: Option<string>,
    properties: Properties,
    timestamp: string)

  /** The one POST `sendBatchEvents` makes: its URL and the `events` of its JSON body. */
  datatype BatchPost = BatchPost(url: string, events: seq<WireEvent>)

  /** The wire record of one queued event; `formatTimestamp` is `Date.toISOString`. */
  function ToWire(appId: string, e: PendingEvent, formatTimestamp: Time -> string): (w: WireEvent)
    ensures w.appId == appId && w.eventName == e.fields.eventName
    ensures w.userId == OrElse(e.fields.userId, "")
    ensures w.properties == (if e.fields.properties.Some? then e.fields.properties.value else map[])
    ensures w.ip == ""
    ensures w.sessionId == e.fields.sessionId && w.anonymousId == e.fields.anonymousId
    ensures w.timestamp == formatTimestamp(e.timestamp)
  {
    var f := e.fields;
    WireEvent(appId, f.eventName, OrElse(f.userId, ""), f.sessionId, f.anonymousId,
              f.pageUrl, f.pageTitle, f.referrer,
              f.utmSource, f.utmMedium, f.utmCampaign, f.utmTerm, f.utmContent,
              f.userAgent, "", f.language, f.screenResolution,
              f.properties.GetOr(map[]), formatTimestamp(e.timestamp))
  }

  /** `sendBatchEvents(events)` up to the `fetch` call: no request for an empty batch, else one record per event, in order. */
  function SendBatchEvents(config: Config, events: seq<PendingEvent>, formatTimestamp: Time -> string)
    : (r: Option<BatchPost>)
    ensures r.None? <==> events == []
    ensures r.Some? ==>
      && r.value.url == config.apiUrl + BatchPath
      && |r.value.events| == |events|
      && forall i | 0 <= i < |events| :: r.value.events[i] == ToWire(config.appId, events[i], formatTimestamp)
  {
    if events == [] then None
    else Some(BatchPost(config.apiUrl + BatchPath,
                        seq(|events|, i requires 0 <= i < |events| => ToWire(config.appId, events[i], formatTimestamp))))
  }

  /** How the POST of a batch ended. */
  datatype PostOutcome = NetworkFailure | Responded(ok: bool, jsonBody: bool)

  /** Whether `sendBatchEvents` resolves (the flush succeeds) rather than throws. */
  predicate BatchSent(events: seq<PendingEvent>, outcome: PostOutcome) {
    events == [] || (outcome.Responded? && outcome.ok && outcome.jsonBody)
  }

  /**
   * `getOrCreateAnonymousId()`: without a window a new id every time; in a
   * browser the non-empty stored id, or a new id that is then stored.
   */
  method GetOrCreateAnonymousId(window: Window?, ids: IdSource) returns (id: string)
    requires ids.Valid()
    modifies ids, LocalFrame(window)
    ensures id != ""
    ensures window != null && Present(old(LocalItem(window, AnonymousIdKey))) ==>
      && id == old(LocalItem(window, AnonymousIdKey)).value
      && ids.drawn == old(ids.drawn)
      && unchanged(LocalFrame(window))
    ensures (window == null || !Present(old(LocalItem(window, AnonymousIdKey)))) ==>
      && id == ids.Id(old(ids.drawn))
      && ids.drawn == old(ids.drawn) + 1
      && (window != null ==> window.localStorage.items == old(window.localStorage.items)[AnonymousIdKey := id])
    ensures id == IdFor(old(LocalItem(window, AnonymousIdKey)), ids.Id(old(ids.drawn)))
    ensures ids.drawn == old(ids.drawn) + DrawsFor(old(LocalItem(window, AnonymousIdKey)))
    ensures window != null ==>
      window.localStorage.items
        == ItemsFor(old(window.localStorage.items), AnonymousIdKey, old(LocalItem(window, AnonymousIdKey)), id)
  {
    if window == null {
      id := ids.GenerateId();
      return;
    }
    var existing := window.localStorage.GetItem(AnonymousIdKey);
    if Present(existing) {
      return existing.value;
    }
    id := ids.GenerateId();
    window.localStorage.SetItem(AnonymousIdKey, id);
  }

  /** In a browser, asking twice gives the same anonymous id. */
  method AnonymousIdIsStable(window: Window, ids: IdSource) returns (first: string, second: string)
    requires ids.Valid()
    modifies ids, window.localStorage
    ensures first == second
  {
    first := GetOrCreateAnonymousId(window, ids);
    second := GetOrCreateAnonymousId(window, ids);
  }

  /**
   * `new Analytics(config)`: the fields are set up, then, when
   * `autoTrackPageView` is on, one `page_view` is tracked.
   */
  method Create(c: AnalyticsConfig, window: Window?, ids: IdSource, now: Time,
                parseUtm: string -> Option<UtmParams>, stringifyUtm: UtmParams -> string)
    returns (a: Analytics)
    requires ids.Valid() && (window != null ==> window.Valid())
    modifies ids, LocalFrame(window)
    ensures fresh(a) && fresh(a.eventQueue) && a.Valid()
    ensures a.window == window && a.ids == ids
    ensures a.config == WithDefaults(c) && a.lastActivityTime == now
    ensures a.eventQueue.timerArmed
    ensures window != null && Present(old(LocalItem(window, SessionKey))) ==>
      a.sessionId == old(LocalItem(window, SessionKey)).value
    ensures window != null && Present(old(LocalItem(window, AnonymousIdKey))) ==>
      a.anonymousId == old(LocalItem(window, AnonymousIdKey)).value
    ensures window != null ==> a.sessionId == IdFor(old(LocalItem(window, SessionKey)), ids.Id(old(ids.drawn)))
    ensures window != null ==>
      a.anonymousId == IdFor(old(LocalItem(window, AnonymousIdKey)),
                             ids.Id(old(ids.drawn) + DrawsFor(old(LocalItem(window, SessionKey)))))
    ensures window != null ==>
      ids.drawn == old(ids.drawn) + DrawsFor(old(LocalItem(window, SessionKey)))
                                  + DrawsFor(old(LocalItem(window, AnonymousIdKey)))
                                  + (if a.config.autoTrackPageView then 1 else 0)
    ensures window == null ==>
      ids.drawn == old(ids.drawn) + 2
                   + (if a.config.autoTrackPageView
                      then (if IsSessionExpired(now, now, a.config.sessionTimeout) then 2 else 1) else 0)
    ensures window == null ==>
      && a.anonymousId == ids.Id(old(ids.drawn) + 1)
      && a.sessionId == if a.config.autoTrackPageView && IsSessionExpired(now, now, a.config.sessionTimeout)
                        then ids.Id(old(ids.drawn) + 2) else ids.Id(old(ids.drawn))
    ensures window != null ==>
      var withIds := old(window.localStorage.items)[SessionKey := a.sessionId][AnonymousIdKey := a.anonymousId];
      window.localStorage.items
        == if a.config.autoTrackPageView then UtmStored(withIds, window.search, stringifyUtm) else withIds
    ensures a.config.autoTrackPageView ==> ids.drawn > old(ids.drawn)
    ensures a.config.autoTrackPageView ==>
      var e := PageViewEvent(a.config.userId, a.sessionId, a.anonymousId, GetBrowserInfo(window),
                             old(StoredUtmParams(window, parseUtm)), now, a.ids.Id(a.ids.drawn - 1));
      && a.eventQueue.enqueued == [e]
      && (if 1 >= a.config.batchSize then a.eventQueue.queue == [] && a.eventQueue.inFlight == [[e]]
          else a.eventQueue.queue == [e] && a.eventQueue.inFlight == [])
    ensures !a.config.autoTrackPageView ==> a.eventQueue.enqueued == []
    ensures !a.config.autoTrackPageView ==> a.eventQueue.queue == [] && a.eventQueue.inFlight == []
    ensures a.eventQueue.delivered == [] && a.eventQueue.discarded == []
  {
    StorageKeysDistinct();
    ghost var utm0 := StoredUtmParams(window, parseUtm);
    a := new Analytics(c, window, ids, now);
    ghost var utm1 := StoredUtmParams(window, parseUtm);
    assert utm1 == utm0;
    a.AutoTrackPageView(now, parseUtm, stringifyUtm);
  }

  /**
   * The constructor's identity step: `generateSessionId()`, then
   * `getOrCreateAnonymousId()`. In a browser both ids end up stored and
   * nothing else in localStorage changes.
   */
  method InitIds(window: Window?, ids: IdSource) returns (sessionId: string, anonymousId: string)
    requires ids.Valid()
    modifies ids, LocalFrame(window)
    ensures ids.Valid()
    ensures sessionId != "" && anonymousId != ""
    ensures sessionId == IdFor(old(LocalItem(window, SessionKey)), ids.Id(old(ids.drawn)))
    ensures anonymousId == IdFor(old(LocalItem(window, AnonymousIdKey)),
                                 ids.Id(old(ids.drawn) + DrawsFor(old(LocalItem(window, SessionKey)))))
    ensures ids.drawn == old(ids.drawn) + DrawsFor(old(LocalItem(window, SessionKey)))
                                        + DrawsFor(old(LocalItem(window, AnonymousIdKey)))
    ensures window != null ==>
      && window.localStorage.items == old(window.localStorage.items)[SessionKey := sessionId][AnonymousIdKey := anonymousId]
      && window.localStorage.GetItem(SessionKey) == Some(sessionId)
      && window.localStorage.GetItem(AnonymousIdKey) == Some(anonymousId)
  {
    StorageKeysDistinct();
    ghost var items0 := if window != null then window.localStorage.items else map[];
    sessionId := GenerateSessionId(window, ids);
    if window != null {
      UpdateWithStored(items0, SessionKey, sessionId);
      assert window.localStorage.items == items0[SessionKey := sessionId];
      assert LocalItem(window, AnonymousIdKey) == old(LocalItem(window, AnonymousIdKey));
    }
    anonymousId := GetOrCreateAnonymousId(window, ids);
    if window != null {
      UpdateWithStored(items0[SessionKey := sessionId], AnonymousIdKey, anonymousId);
    }
  }

  class Analytics {
    var config: Config
    var sessionId: string
    var lastActivityTime: Time
    const eventQueue: EventQueue
    var anonymousId: string
    const window: Window?
    const ids: IdSource

    /**
     * The queue belongs to this client and uses its config and id supply, and
     * both ids held are non-empty. localStorage is not tied to them: other
     * code may remove or change the stored ids at any time.
     */
    ghost predicate Valid()
      reads this, eventQueue
    {
      && eventQueue.Valid() && ids.Valid()
      && eventQueue.ids == ids
      && eventQueue.batchSize == config.batchSize && eventQueue.batchInterval == config.batchInterval
      && sessionId != "" && anonymousId != ""
      && (window != null ==> window.Valid())
    }

    /**
     * The constructor up to the queue's creation: defaults, the two ids, the
     * activity time and an empty, armed queue. `Create` follows it with
     * `AutoTrackPageView`.
     */
    constructor (c: AnalyticsConfig, window: Window?, ids: IdSource, now: Time)
      requires ids.Valid() && (window != null ==> window.Valid())
      modifies ids, LocalFrame(window)
      ensures Valid() && fresh(eventQueue)
      ensures this.window == window && this.ids == ids
      ensures config == WithDefaults(c) && lastActivityTime == now
      ensures sessionId == IdFor(old(LocalItem(window, SessionKey)), ids.Id(old(ids.drawn)))
      ensures anonymousId == IdFor(old(LocalItem(window, AnonymousIdKey)),
                                   ids.Id(old(ids.drawn) + DrawsFor(old(LocalItem(window, SessionKey)))))
      ensures ids.drawn == old(ids.drawn) + DrawsFor(old(LocalItem(window, SessionKey)))
                                          + DrawsFor(old(LocalItem(window, AnonymousIdKey)))
      ensures window != null && Present(old(LocalItem(window, SessionKey))) ==>
        sessionId == old(LocalItem(window, SessionKey)).value
      ensures window != null && Present(old(LocalItem(window, AnonymousIdKey))) ==>
        anonymousId == old(LocalItem(window, AnonymousIdKey)).value
      ensures window == null ==>
        && sessionId == ids.Id(old(ids.drawn)) && anonymousId == ids.Id(old(ids.drawn) + 1)
        && ids.drawn == old(ids.drawn) + 2
      ensures window != null ==>
        && window.localStorage.items == old(window.localStorage.items)[SessionKey := sessionId][AnonymousIdKey := anonymousId]
        && LocalItem(window, SessionKey) == Some(sessionId) && LocalItem(window, AnonymousIdKey) == Some(anonymousId)
      ensures eventQueue.queue == [] && eventQueue.timerArmed
      ensures eventQueue.enqueued == [] && eventQueue.inFlight == []
      ensures eventQueue.delivered == [] && eventQueue.discarded == []
    {
      var cfg := WithDefaults(c);
      var sid, aid := InitIds(window, ids);
      config := cfg;
      this.window := window;
      this.ids := ids;
      sessionId := sid;
      lastActivityTime := now;
      anonymousId := aid;
      eventQueue := new EventQueue(cfg.batchSize, cfg.batchInterval, ids);
    }

    /**
     * The constructor's last step, `if (this.config.autoTrackPageView) this.trackPageView()`:
     * with the option off nothing changes. It runs right after the identity
     * step, so in a browser localStorage holds the session id this client holds.
     */
    method AutoTrackPageView(now: Time, parseUtm: string -> Option<UtmParams>, stringifyUtm: UtmParams -> string)
      requires Valid()
      requires window != null ==> LocalItem(window, SessionKey) == Some(sessionId)
      modifies this, eventQueue, ids, LocalFrame(window)
      ensures Valid()
      ensures config == old(config) && anonymousId == old(anonymousId)
      ensures !config.autoTrackPageView ==>
        && unchanged(this) && unchanged(eventQueue) && unchanged(LocalFrame(window)) && ids.drawn == old(ids.drawn)
      ensures config.autoTrackPageView ==> lastActivityTime == now
      ensures config.autoTrackPageView && window != null ==> sessionId == old(sessionId)
      ensures config.autoTrackPageView && window == null ==>
        sessionId == if IsSessionExpired(now, old(lastActivityTime), config.sessionTimeout)
                     then ids.Id(old(ids.drawn)) else old(sessionId)
      ensures config.autoTrackPageView ==>
        ids.drawn == old(ids.drawn)
                     + (if window == null && IsSessionExpired(now, old(lastActivityTime), config.sessionTimeout) then 1 else 0)
                     + 1
      ensures config.autoTrackPageView ==>
        var e := PageViewEvent(config.userId, sessionId, anonymousId, GetBrowserInfo(window),
                               old(StoredUtmParams(window, parseUtm)), now, ids.Id(ids.drawn - 1));
        && eventQueue.enqueued == old(eventQueue.enqueued) + [e]
        && (if |old(eventQueue.queue)| + 1 >= config.batchSize then
              eventQueue.queue == [] && eventQueue.inFlight == old(eventQueue.inFlight) + [old(eventQueue.queue) + [e]]
            else
              eventQueue.queue == old(eventQueue.queue) + [e] && eventQueue.inFlight == old(eventQueue.inFlight))
      ensures eventQueue.delivered == old(eventQueue.delivered) && eventQueue.discarded == old(eventQueue.discarded)
      ensures eventQueue.timerArmed == old(eventQueue.timerArmed)
      ensures config.autoTrackPageView && window != null ==>
        window.localStorage.items == UtmStored(old(window.localStorage.items), window.search, stringifyUtm)
    {
      if config.autoTrackPageView {
        var _ := TrackPageView(None, now, parseUtm, stringifyUtm);
      }
    }

    /**
     * `checkAndUpdateSession()`: the activity time always becomes `now`; a
     * session id is asked for only when the gap exceeds the timeout. In a
     * browser that request returns the stored id while localStorage still
     * holds one, and otherwise draws and stores a new one.
     */
    method CheckAndUpdateSession(now: Time)
      requires Valid()
      modifies this, ids, LocalFrame(window)
      ensures Valid()
      ensures lastActivityTime == now
      ensures config == old(config) && anonymousId == old(anonymousId)
      ensures var expired := IsSessionExpired(now, old(lastActivityTime), config.sessionTimeout);
              var stored := old(LocalItem(window, SessionKey));
        && sessionId == (if expired then IdFor(stored, ids.Id(old(ids.drawn))) else old(sessionId))
        && ids.drawn == old(ids.drawn) + (if expired then DrawsFor(stored) else 0)
      ensures window != null ==>
        window.localStorage.items
          == if IsSessionExpired(now, old(lastActivityTime), config.sessionTimeout)
             then ItemsFor(old(window.localStorage.items), SessionKey, old(LocalItem(window, SessionKey)), sessionId)
             else old(window.localStorage.items)
      ensures !IsSessionExpired(now, old(lastActivityTime), config.sessionTimeout) ==>
        sessionId == old(sessionId) && ids.drawn == old(ids.drawn) && unchanged(LocalFrame(window))
      ensures window != null && old(LocalItem(window, SessionKey)) == Some(old(sessionId)) ==>
        sessionId == old(sessionId) && ids.drawn == old(ids.drawn) && unchanged(LocalFrame(window))
      ensures IsSessionExpired(now, old(lastActivityTime), config.sessionTimeout) && window == null ==>
        && sessionId == ids.Id(old(ids.drawn)) && ids.drawn == old(ids.drawn) + 1
    {
      if IsSessionExpired(now, lastActivityTime, config.sessionTimeout) {
        sessionId := GenerateSessionId(window, ids);
      }
      lastActivityTime := now;
    }

    /** The part of `track` before `enqueue`: the session check, then the decorated event. */
    method PrepareEvent(o: TrackEventOptions, now: Time,
                        parseUtm: string -> Option<UtmParams>, stringifyUtm: UtmParams -> string)
      returns (draft: EventDraft)
      requires Valid()
      modifies this, ids, LocalFrame(window)
      ensures Valid()
      ensures lastActivityTime == now && config == old(config) && anonymousId == old(anonymousId)
      ensures var expired := IsSessionExpired(now, old(lastActivityTime), config.sessionTimeout);
              var stored := old(LocalItem(window, SessionKey));
        && sessionId == (if expired then IdFor(stored, ids.Id(old(ids.drawn))) else old(sessionId))
        && ids.drawn == old(ids.drawn) + (if expired then DrawsFor(stored) else 0)
      ensures window != null && old(LocalItem(window, SessionKey)) == Some(old(sessionId)) ==> sessionId == old(sessionId)
      ensures unchanged(eventQueue)
      ensures window != null ==>
        window.localStorage.items == UtmStored(if IsSessionExpired(now, old(lastActivityTime), config.sessionTimeout)
                     then ItemsFor(old(window.localStorage.items), SessionKey, old(LocalItem(window, SessionKey)), sessionId)
                     else old(window.localStorage.items),
                     window.search, stringifyUtm)
      ensures draft == Decorate(o, config.userId, sessionId, anonymousId, GetBrowserInfo(window),
                                old(StoredUtmParams(window, parseUtm)), now)
    {
      StorageKeysDistinct();
      CheckAndUpdateSession(now);
      assert StoredUtmParams(window, parseUtm) == old(StoredUtmParams(window, parseUtm));
      var info := GetBrowserInfo(window);
      var utm := GetStoredUTMParams(window, parseUtm, stringifyUtm);
      draft := Decorate(o, config.userId, sessionId, anonymousId, info, utm, now);
    }

    /**
     * `track(options)`: stamps the session, decorates the options and enqueues
     * exactly one event; `started` is the batch of the flush this triggered, if any.
     */
    method Track(o: TrackEventOptions, now: Time,
                 parseUtm: string -> Option<UtmParams>, stringifyUtm: UtmParams -> string)
      returns (started: Option<seq<PendingEvent>>)
      requires Valid()
      modifies this, eventQueue, ids, LocalFrame(window)
      ensures Valid()
      ensures lastActivityTime == now && config == old(config) && anonymousId == old(anonymousId)
      ensures var expired := IsSessionExpired(now, old(lastActivityTime), config.sessionTimeout);
              var stored := old(LocalItem(window, SessionKey));
        && sessionId == (if expired then IdFor(stored, ids.Id(old(ids.drawn))) else old(sessionId))
        && ids.drawn == old(ids.drawn) + (if expired then DrawsFor(stored) else 0) + 1
      ensures window != null && old(LocalItem(window, SessionKey)) == Some(old(sessionId)) ==> sessionId == old(sessionId)
      ensures var e := Stamp(Decorate(o, config.userId, sessionId, anonymousId, GetBrowserInfo(window),
                                      old(StoredUtmParams(window, parseUtm)), now),
                             ids.Id(ids.drawn - 1), now);
        && eventQueue.enqueued == old(eventQueue.enqueued) + [e]
        && (if |old(eventQueue.queue)| + 1 >= config.batchSize then
              started == Some(old(eventQueue.queue) + [e]) && eventQueue.queue == []
            else
              started == None && eventQueue.queue == old(eventQueue.queue) + [e])
      ensures eventQueue.inFlight == old(eventQueue.inFlight) + (if started.Some? then [started.value] else [])
      ensures eventQueue.delivered == old(eventQueue.delivered) && eventQueue.discarded == old(eventQueue.discarded)
      ensures eventQueue.timerArmed == old(eventQueue.timerArmed)
      ensures window != null ==>
        window.localStorage.items == UtmStored(if IsSessionExpired(now, old(lastActivityTime), config.sessionTimeout)
                     then ItemsFor(old(window.localStorage.items), SessionKey, old(LocalItem(window, SessionKey)), sessionId)
                     else old(window.localStorage.items),
                     window.search, stringifyUtm)
    {
      ghost var utm := StoredUtmParams(window, parseUtm);
      var draft := PrepareEvent(o, now, parseUtm, stringifyUtm);
      assert draft == Decorate(o, config.userId, sessionId, anonymousId, GetBrowserInfo(window), utm, now);
      started := EnqueueDraft(draft, now);
    }

    /** The last step of `track`: `this.eventQueue.enqueue(event)`; the client's own fields and storage stay. */
    method EnqueueDraft(draft: EventDraft, now: Time) returns (started: Option<seq<PendingEvent>>)
      requires Valid()
      modifies eventQueue, ids
      ensures Valid()
      ensures ids.drawn == old(ids.drawn) + 1
      ensures var e := Stamp(draft, ids.Id(ids.drawn - 1), now);
        && eventQueue.enqueued == old(eventQueue.enqueued) + [e]
        && (if |old(eventQueue.queue)| + 1 >= config.batchSize then
              started == Some(old(eventQueue.queue) + [e]) && eventQueue.queue == []
            else
              started == None && eventQueue.queue == old(eventQueue.queue) + [e])
      ensures eventQueue.inFlight == old(eventQueue.inFlight) + (if started.Some? then [started.value] else [])
      ensures eventQueue.delivered == old(eventQueue.delivered) && eventQueue.discarded == old(eventQueue.discarded)
      ensures eventQueue.timerArmed == old(eventQueue.timerArmed)
      ensures unchanged(LocalFrame(window))
    {
      started := eventQueue.Enqueue(draft, now);
    }

    /** `trackPageView(properties?)`. */
    method TrackPageView(properties: Option<Properties>, now: Time,
                         parseUtm: string -> Option<UtmParams>, stringifyUtm: UtmParams -> string)
      returns (started: Option<seq<PendingEvent>>)
      requires Valid()
      modifies this, eventQueue, ids, LocalFrame(window)
      ensures Valid()
      ensures lastActivityTime == now && config == old(config) && anonymousId == old(anonymousId)
      ensures var expired := IsSessionExpired(now, old(lastActivityTime), config.sessionTimeout);
              var stored := old(LocalItem(window, SessionKey));
        && sessionId == (if expired then IdFor(stored, ids.Id(old(ids.drawn))) else old(sessionId))
        && ids.drawn == old(ids.drawn) + (if expired then DrawsFor(stored) else 0) + 1
      ensures window != null && old(LocalItem(window, SessionKey)) == Some(old(sessionId)) ==> sessionId == old(sessionId)
      ensures var e := Stamp(Decorate(PageViewOptions(properties), config.userId, sessionId, anonymousId,
                                      GetBrowserInfo(window), old(StoredUtmParams(window, parseUtm)), now),
                             ids.Id(ids.drawn - 1), now);
        && eventQueue.enqueued == old(eventQueue.enqueued) + [e]
        && (if |old(eventQueue.queue)| + 1 >= config.batchSize then
              started == Some(old(eventQueue.queue) + [e]) && eventQueue.queue == []
            else
              started == None && eventQueue.queue == old(eventQueue.queue) + [e])
      ensures eventQueue.enqueued[|eventQueue.enqueued| - 1].fields.eventName == "page_view"
      ensures eventQueue.enqueued[|eventQueue.enqueued| - 1].fields.properties == Some(properties.GetOr(map[]))
      ensures eventQueue.inFlight == old(eventQueue.inFlight) + (if started.Some? then [started.value] else [])
      ensures eventQueue.delivered == old(eventQueue.delivered) && eventQueue.discarded == old(eventQueue.discarded)
      ensures eventQueue.timerArmed == old(eventQueue.timerArmed)
      ensures window != null ==>
        window.localStorage.items == UtmStored(if IsSessionExpired(now, old(lastActivityTime), config.sessionTimeout)
                     then ItemsFor(old(window.localStorage.items), SessionKey, old(LocalItem(window, SessionKey)), sessionId)
                     else old(window.localStorage.items),
                     window.search, stringifyUtm)
    {
      started := Track(PageViewOptions(properties), now, parseUtm, stringifyUtm);
    }

    /**
     * A flush of this client settling: `sendBatchEvents(batch)` resolves exactly
     * when `BatchSent` holds, and the queue then counts the batch as delivered;
     * otherwise the batch goes back in front of the queue.
     */
    method SettleFlush(batch: seq<PendingEvent>, outcome: PostOutcome)
      requires Valid() && batch in eventQueue.inFlight
      modifies eventQueue
      ensures Valid()
      ensures exists i | 0 <= i < |old(eventQueue.inFlight)| ::
        old(eventQueue.inFlight)[i] == batch
        && eventQueue.inFlight == old(eventQueue.inFlight)[..i] + old(eventQueue.inFlight)[i + 1..]
      ensures BatchSent(batch, outcome) ==>
        eventQueue.queue == old(eventQueue.queue) && eventQueue.delivered == old(eventQueue.delivered) + batch
      ensures !BatchSent(batch, outcome) ==>
        eventQueue.queue == batch + old(eventQueue.queue) && eventQueue.delivered == old(eventQueue.delivered)
      ensures eventQueue.enqueued == old(eventQueue.enqueued) && eventQueue.discarded == old(eventQueue.discarded)
      ensures eventQueue.timerArmed == old(eventQueue.timerArmed)
    {
      eventQueue.CompleteFlush(batch, BatchSent(batch, outcome));
    }

    /** `identify(userId)`: later events default to `userId`; queued events are untouched. */
    method Identify(userId: string)
      requires Valid()
      modifies this
      ensures Valid()
      ensures config == old(config).(userId := userId)
      ensures sessionId == old(sessionId) && anonymousId == old(anonymousId)
      ensures lastActivityTime == old(lastActivityTime)
      ensures unchanged(eventQueue)
    {
      config := config.(userId := userId);
    }

    /**
     * `reset()`: the user id is cleared and both ids are asked for again, the
     * anonymous id first. In a browser each comes back from localStorage while
     * it still holds one; otherwise a new id is drawn and stored.
     */
    method Reset()
      requires Valid()
      modifies this, ids, LocalFrame(window)
      ensures Valid()
      ensures config == old(config).(userId := "")
      ensures lastActivityTime == old(lastActivityTime)
      ensures var anonStored := old(LocalItem(window, AnonymousIdKey));
              var sessionStored := old(LocalItem(window, SessionKey));
        && anonymousId == IdFor(anonStored, ids.Id(old(ids.drawn)))
        && sessionId == IdFor(sessionStored, ids.Id(old(ids.drawn) + DrawsFor(anonStored)))
        && ids.drawn == old(ids.drawn) + DrawsFor(anonStored) + DrawsFor(sessionStored)
      ensures window != null ==>
        window.localStorage.items
          == ItemsFor(ItemsFor(old(window.localStorage.items), AnonymousIdKey, old(LocalItem(window, AnonymousIdKey)), anonymousId),
                      SessionKey, old(LocalItem(window, SessionKey)), sessionId)
      ensures window != null && old(LocalItem(window, AnonymousIdKey)) == Some(old(anonymousId))
                             && old(LocalItem(window, SessionKey)) == Some(old(sessionId)) ==>
        && anonymousId == old(anonymousId) && sessionId == old(sessionId)
        && ids.drawn == old(ids.drawn) && unchanged(LocalFrame(window))
      ensures window == null ==>
        && anonymousId == ids.Id(old(ids.drawn)) && sessionId == ids.Id(old(ids.drawn) + 1)
        && ids.drawn == old(ids.drawn) + 2
      ensures unchanged(eventQueue)
    {
      StorageKeysDistinct();
      config := config.(userId := "");
      anonymousId := GetOrCreateAnonymousId(window, ids);
      assert LocalItem(window, SessionKey) == old(LocalItem(window, SessionKey));
      sessionId := GenerateSessionId(window, ids);
    }

    /** `flush()`: the synchronous part of the queue's flush. */
    method Flush() returns (batch: Option<seq<PendingEvent>>)
      requires Valid()
      modifies eventQueue
      ensures Valid()
      ensures old(eventQueue.queue) == [] ==> batch == None
      ensures old(eventQueue.queue) != [] ==> batch == Some(old(eventQueue.queue))
      ensures eventQueue.queue == []
      ensures eventQueue.inFlight == old(eventQueue.inFlight) + (if batch.Some? then [batch.value] else [])
      ensures eventQueue.enqueued == old(eventQueue.enqueued) && eventQueue.delivered == old(eventQueue.delivered)
      ensures eventQueue.discarded == old(eventQueue.discarded) && eventQueue.timerArmed == old(eventQueue.timerArmed)
    {
      batch := eventQueue.BeginFlush();
    }

    /** `destroy()`: the timer stops and queued events are dropped without a flush. */
    method Destroy()
      requires Valid()
      modifies eventQueue
      ensures Valid()
      ensures !eventQueue.timerArmed && eventQueue.queue == []
      ensures eventQueue.discarded == old(eventQueue.discarded) + old(eventQueue.queue)
      ensures eventQueue.delivered == old(eventQueue.delivered) && eventQueue.inFlight == old(eventQueue.inFlight)
    {
      eventQueue.Stop();
      eventQueue.Clear();
    }
  }
}
