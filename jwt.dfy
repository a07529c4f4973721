/**
 * `parseUserIdFromToken` and `getUserIdFromToken`
 * (`packages/core/src/utils/jwt.ts`): the `userId` claim of a JWS compact
 * serialization (section 7.1 of RFC 7515), read without checking the
 * signature. `atob` and `JSON.parse` are parameters; None is a thrown error.
 */
module Jwt {
  import opened Wrappers
  import opened Text
  import opened Js
  import opened Browser

  /** `(4 - n % 4) % 4`, the number of `=` that completes a base64 quantum. */
  function PaddingLength(n: nat): (p: nat)
    ensures p < 4 && (n + p) % 4 == 0
  {
    (4 - n % 4) % 4
  }

  /** The base64url alphabet (section 5 of RFC 4648), without padding. */
  predicate IsBase64UrlChar(c: char) {
    ('A' <= c <= 'Z') || ('a' <= c <= 'z') || ('0' <= c <= '9') || c == '-' || c == '_'
  }

  /** The base64 alphabet (section 4 of RFC 4648), without padding. */
  predicate IsBase64Char(c: char) {
    ('A' <= c <= 'Z') || ('a' <= c <= 'z') || ('0' <= c <= '9') || c == '+' || c == '/'
  }

  function UrlToStandard(c: char): char {
    if c == '-' then '+' else if c == '_' then '/' else c
  }

  /** `payload + '='.repeat(...)`, then `-` to `+` and `_` to `/`. */
  function ToStandardBase64(payload: string): (r: string)
    ensures |r| == |payload| + PaddingLength(|payload|) && |r| % 4 == 0
    ensures forall i | 0 <= i < |payload| :: r[i] == UrlToStandard(payload[i])
    ensures forall i | |payload| <= i < |r| :: r[i] == '='
  {
    var padded := payload + Repeat('=', PaddingLength(|payload|));
    ReplaceAll(ReplaceAll(padded, '-', '+'), '_', '/')
  }

  /** A base64url payload becomes base64 text: alphabet characters followed by at most three `=`. */
  lemma StandardAlphabet(payload: string)
    requires forall i | 0 <= i < |payload| :: IsBase64UrlChar(payload[i])
    ensures var r := ToStandardBase64(payload);
      && (forall i | 0 <= i < |payload| :: IsBase64Char(r[i]))
      && |r| - |payload| <= 3
  {
  }

  /** The inverse direction: drop the padding, then `+` to `-` and `/` to `_`. */
  function StandardToUrl(s: string): (r: string)
    ensures |r| <= |s|
  {
    if s != [] && s[|s| - 1] == '=' then StandardToUrl(s[..|s| - 1])
    else ReplaceAll(ReplaceAll(s, '+', '-'), '/', '_')
  }

  lemma {:induction false} StandardToUrlDropsPadding(body: string, n: nat)
    requires body == [] || body[|body| - 1] != '='
    ensures StandardToUrl(body + Repeat('=', n)) == StandardToUrl(body)
    decreases n
  {
    if n > 0 {
      assert (body + Repeat('=', n))[..|body| + n - 1] == body + Repeat('=', n - 1);
      StandardToUrlDropsPadding(body, n - 1);
    } else {
      assert body + Repeat('=', 0) == body;
    }
  }

  /** Converting a base64url payload to base64 loses nothing. */
  lemma StandardBase64RoundTrip(payload: string)
    requires forall i | 0 <= i < |payload| :: IsBase64UrlChar(payload[i])
    ensures StandardToUrl(ToStandardBase64(payload)) == payload
  {
    var r := ToStandardBase64(payload);
    var body := r[..|payload|];
    assert r == body + Repeat('=', PaddingLength(|payload|));
    StandardToUrlDropsPadding(body, PaddingLength(|payload|));
    assert StandardToUrl(body) == ReplaceAll(ReplaceAll(body, '+', '-'), '/', '_');
  }

  /** `parseUserIdFromToken(token)`: a non-empty string `userId` claim, or null. */
  function ParseUserIdFromToken(token: string, atob: string -> Option<string>, jsonParse: string -> Option<JsValue>)
    : (r: Option<string>)
    ensures r.Some? ==> r.value != "" && Count(token, '.') == 2
  {
    var parts := Split(token, '.');
    if |parts| != 3 then None
    else
      match atob(ToStandardBase64(parts[1]))
      case None => None
      case Some(decoded) =>
        match jsonParse(decoded)
        case None => None
        case Some(claims) =>
          match Get(claims, "userId")
          case Some(Str(id)) => if id != "" then Some(id) else None
          case _ => None
  }

  /** A token with other than two dots is rejected before anything is decoded. */
  lemma WrongPartCount(token: string, atob: string -> Option<string>, jsonParse: string -> Option<JsValue>)
    requires Count(token, '.') != 2
    ensures ParseUserIdFromToken(token, atob, jsonParse) == None
  {
  }

  /** `header.payload.signature` with dot-free parts splits into exactly those three parts. */
  lemma SplitComposed(header: string, payload: string, signature: string)
    requires '.' !in header && '.' !in payload && '.' !in signature
    ensures Split(header + "." + payload + "." + signature, '.') == [header, payload, signature]
  {
    var parts := [header, payload, signature];
    SplitJoin(parts, '.');
    assert Join(parts, '.') == header + "." + payload + "." + signature by {
      assert Join(parts[1..], '.') == payload + "." + signature;
    }
  }

  /** The claim of `header.payload.signature` is found when the payload decodes to claims with a string `userId`. */
  lemma ComposedToken(header: string, payload: string, signature: string, claims: map<string, JsValue>, id: string,
                      atob: string -> Option<string>, jsonParse: string -> Option<JsValue>)
    requires '.' !in header && '.' !in payload && '.' !in signature
    requires atob(ToStandardBase64(payload)).Some?
    requires jsonParse(atob(ToStandardBase64(payload)).value) == Some(Obj(claims))
    requires "userId" in claims && claims["userId"] == Str(id) && id != ""
    ensures ParseUserIdFromToken(header + "." + payload + "." + signature, atob, jsonParse) == Some(id)
  {
    SplitComposed(header, payload, signature);
  }

  /** A `userId` claim that is not a string, or is empty, gives null. */
  lemma NonStringClaim(header: string, payload: string, signature: string, claims: map<string, JsValue>,
                       atob: string -> Option<string>, jsonParse: string -> Option<JsValue>)
    requires '.' !in header && '.' !in payload && '.' !in signature
    requires atob(ToStandardBase64(payload)).Some?
    requires jsonParse(atob(ToStandardBase64(payload)).value) == Some(Obj(claims))
    requires "userId" !in claims || !claims["userId"].Str? || claims["userId"] == Str("")
    ensures ParseUserIdFromToken(header + "." + payload + "." + signature, atob, jsonParse) == None
  {
    SplitComposed(header, payload, signature);
  }

  /**
   * Every failure inside the `try` gives null: `atob` rejecting the payload,
   * `JSON.parse` rejecting the decoded text, or claims that are not an object
   * (`null` makes `claims.userId` throw; a string, number or boolean has no `userId`).
   */
  lemma DecodeFailureGivesNull(header: string, payload: string, signature: string,
                               atob: string -> Option<string>, jsonParse: string -> Option<JsValue>)
    requires '.' !in header && '.' !in payload && '.' !in signature
    requires var decoded := atob(ToStandardBase64(payload));
      decoded.None? || jsonParse(decoded.value).None? || !jsonParse(decoded.value).value.Obj?
    ensures ParseUserIdFromToken(header + "." + payload + "." + signature, atob, jsonParse) == None
  {
    SplitComposed(header, payload, signature);
  }

  /** `getUserIdFromToken(tokenGetter?)`; without a getter the token is `localStorage['access_token']`. */
  function GetUserIdFromToken(window: Window?, tokenGetter: Option<() -> Option<string>>,
                              atob: string -> Option<string>, jsonParse: string -> Option<JsValue>)
    : (r: Option<string>)
    reads LocalFrame(window)
    ensures window == null ==> r == None
    ensures window != null ==>
      var token := if tokenGetter.Some? then tokenGetter.value() else LocalItem(window, AccessTokenKey);
      r == if Present(token) then ParseUserIdFromToken(token.value, atob, jsonParse) else None
  {
    if window == null then None
    else
      var token := if tokenGetter.Some? then tokenGetter.value() else window.localStorage.GetItem(AccessTokenKey);
      if !Present(token) then None else ParseUserIdFromToken(token.value, atob, jsonParse)
  }
}
