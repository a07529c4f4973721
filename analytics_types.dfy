/** The records the analytics SDK passes around (its `types.ts`). */
module AnalyticsTypes {
  import opened Wrappers

  /** A point in time, in milliseconds since the epoch (`Date.now()`, `new Date()`). */
  type Time = int

  /** A property value: string, number, boolean or null; `undefined` is an absent key. */
  datatype PropValue = PString(s: string) | PNumber(n: int) | PBool(b: bool) | PNull

  type Properties = map<string, PropValue>

  /** A UTM parameter object, keyed by the property names it actually carries. */
  type UtmParams = map<string, string>

  /** What the application passes to `track`. */
  datatype TrackEventOptions = TrackEventOptions(
    eventName: string,
    properties: Option<Properties>,
    userId: Option<string>,
    sessionId: Option<string>,
    anonymousId: Option<string>,
    pageUrl: Option<string>,
    pageTitle: Option<string>,
    referrer: Option<string>,
    timestamp: Option<Time>)

  /** The fields of a queued event other than its `id` and `timestamp`. */
  datatype EventFields = EventFields(
    eventName: string,
    properties: Option<Properties>,
    userId: Option<string>,
    sessionId: Option<string>,
    anonymousId: Option<string>,
    pageUrl: Option<string>,
    pageTitle: Option<string>,
    referrer: Option<string>,
    utmSource: Option<string>,
    utmMedium: Option<string>,
    utmCampaign: Option<string>,
    utmTerm: Option<string>,
    utmContent: Option<string>,
    userAgent: Option<string>,
    language: Option<string>,
    screenResolution: Option<string>)

  /** The object handed to `enqueue`: the fields, possibly with a timestamp of its own. */
  datatype EventDraft = EventDraft(fields: EventFields, timestamp: Option<Time>)

  /** A queued event: the draft's fields, a generated id and the enqueue time. */
  datatype PendingEvent = PendingEvent(fields: EventFields, id: string, timestamp: Time)

  datatype BrowserInfo = BrowserInfo(
    userAgent: string,
    language: string,
    screenResolution: string,
    pageUrl: string,
    pageTitle: string,
    referrer: string)

  /** The configuration the application passes to the `Analytics` constructor. */
  datatype AnalyticsConfig = AnalyticsConfig(
    apiUrl: string,
    appId: string,
    userId: Option<string>,
    autoTrackPageView: Option<bool>,
    autoTrackClick: Option<bool>,
    batchInterval: Option<int>,
    batchSize: Option<int>,
    sessionTimeout: Option<int>,
    debug: Option<bool>)
}
