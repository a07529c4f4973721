/**
 * The browser globals the core reads: Web Storage objects, and a window with
 * its navigator, screen, location and document values. A missing window
 * (`typeof window === 'undefined'`) is a null `Window?`.
 */
module Browser {
  import opened Wrappers

  /** The parsed query of a URL (`URLSearchParams`), in order. */
  type Query = seq<(string, string)>

  /** `searchParams.get(key)`: the value of the first pair with this name. */
  function QueryGet(q: Query, key: string): (r: Option<string>)
    ensures r.Some? ==> exists i | 0 <= i < |q| :: q[i] == (key, r.value)
    ensures r.None? ==> forall i | 0 <= i < |q| :: q[i].0 != key
  {
    if q == [] then None
    else if q[0].0 == key then Some(q[0].1)
    else QueryGet(q[1..], key)
  }

  /** `get` answers with the first pair named `key`: `v` is the answer exactly when such a first pair holds `v`. */
  lemma {:induction false} QueryGetIsFirst(q: Query, key: string, v: string)
    ensures QueryGet(q, key) == Some(v) <==>
      exists i | 0 <= i < |q| :: q[i] == (key, v) && forall j | 0 <= j < i :: q[j].0 != key
  {
    if q == [] {
    } else if q[0].0 == key {
      if QueryGet(q, key) != Some(v) {
        forall i | 0 <= i < |q| && q[i] == (key, v)
          ensures exists j | 0 <= j < i :: q[j].0 == key
        {
          assert i != 0;
          assert q[0].0 == key;
        }
      }
    } else {
      QueryGetIsFirst(q[1..], key, v);
      if QueryGet(q, key) == Some(v) {
        var i :| 0 <= i < |q[1..]| && q[1..][i] == (key, v) && forall j | 0 <= j < i :: q[1..][j].0 != key;
        assert q[i + 1] == (key, v);
        forall j | 0 <= j < i + 1 ensures q[j].0 != key {
          if j > 0 { assert q[j] == q[1..][j - 1]; }
        }
      } else {
        forall i | 0 <= i < |q| && q[i] == (key, v)
          ensures exists j | 0 <= j < i :: q[j].0 == key
        {
          assert i != 0;
          var i' := i - 1;
          assert q[1..][i'] == (key, v);
          var j' :| 0 <= j' < i' && q[1..][j'].0 == key;
          assert q[j' + 1].0 == key;
        }
      }
    }
  }

  /** A Web Storage area (localStorage, sessionStorage). */
  class Storage {
    var items: map<string, string>

    constructor (init: map<string, string>)
      ensures items == init
    {
      items := init;
    }

    /** `getItem(key)`: the stored string, or null. */
    function GetItem(key: string): (v: Option<string>)
      reads this
      ensures v.Some? <==> key in items
      ensures v.Some? ==> v.value == items[key]
    {
      if key in items then Some(items[key]) else None
    }

    method SetItem(key: string, value: string)
      modifies this
      ensures items == old(items)[key := value]
    {
      items := items[key := value];
    }

    method RemoveItem(key: string)
      modifies this
      ensures items == old(items) - {key}
    {
      items := items - {key};
    }
  }

  class Window {
    const localStorage: Storage
    const sessionStorage: Storage
    const userAgent: string        // navigator.userAgent
    const language: string         // navigator.language
    const languages: seq<string>   // navigator.languages
    const screenWidth: int         // window.screen.width
    const screenHeight: int        // window.screen.height
    const href: string             // window.location.href
    const search: Query            // window.location.search, parsed
    const title: string            // document.title
    const referrer: string         // document.referrer

    ghost predicate Valid() {
      localStorage != sessionStorage
    }

    constructor (local: map<string, string>, session: map<string, string>,
                 userAgent: string, language: string, languages: seq<string>,
                 screenWidth: int, screenHeight: int,
                 href: string, search: Query, title: string, referrer: string)
      ensures Valid() && fresh(localStorage) && fresh(sessionStorage)
      ensures localStorage.items == local && sessionStorage.items == session
      ensures this.userAgent == userAgent && this.language == language && this.languages == languages
      ensures this.screenWidth == screenWidth && this.screenHeight == screenHeight
      ensures this.href == href && this.search == search && this.title == title && this.referrer == referrer
    {
      localStorage := new Storage(local);
      sessionStorage := new Storage(session);
      this.userAgent, this.language, this.languages := userAgent, language, languages;
      this.screenWidth, this.screenHeight := screenWidth, screenHeight;
      this.href, this.search, this.title, this.referrer := href, search, title, referrer;
    }
  }

  /** The storage key under which the access token is kept unless configured otherwise. */
  const AccessTokenKey := "access_token"

  /** The localStorage object when a window exists, as a frame. */
  function LocalFrame(w: Window?): set<object> {
    if w == null then {} else {w.localStorage}
  }

  /** Both storage areas when a window exists, as a frame. */
  function StorageFrame(w: Window?): set<object> {
    if w == null then {} else {w.localStorage, w.sessionStorage}
  }

  /** `localStorage.getItem(key)` when a window exists; null otherwise. */
  function LocalItem(w: Window?, key: string): (v: Option<string>)
    reads LocalFrame(w)
    ensures w == null ==> v.None?
  {
    if w == null then None else w.localStorage.GetItem(key)
  }
}
