/**
 * `parseError` (`packages/core/src/client/error.ts`): the classification of a
 * failed response body into an `ApiError` with a code, a message and the body
 * itself as details.
 */
module ApiErrors {
  import opened Wrappers
  import opened Text
  import opened Js

  datatype ApiError = ApiError(code: JsValue, message: JsValue, details: Option<JsValue>)

  const DefaultMessage := "请求失败"

  /** `vs[0] || vs[1] || ... || d`. */
  function FirstTruthy(vs: seq<JsValue>, d: JsValue): (r: JsValue)
    ensures forall i | 0 <= i < |vs| :: Truthy(vs[i]) && (forall j | 0 <= j < i :: !Truthy(vs[j])) ==> r == vs[i]
    ensures (forall i | 0 <= i < |vs| :: !Truthy(vs[i])) ==> r == d
    ensures Truthy(d) ==> Truthy(r)
  {
    if vs == [] then d
    else if Truthy(vs[0]) then vs[0]
    else
      var r := FirstTruthy(vs[1..], d);
      assert forall i | 1 <= i < |vs| :: vs[i] == vs[1..][i - 1];
      r
  }

  /** `data[key]` on a body that is not `undefined` or `null`. */
  function Field(data: JsValue, key: string): JsValue
    requires !Nullish(data)
  {
    Get(data, key).value
  }

  /** `(data.error && typeof data.error === 'string' ? data.error : null)`. */
  function ErrorText(data: JsValue): (v: JsValue)
    requires !Nullish(data)
    ensures Truthy(v) <==> Field(data, "error").Str? && Field(data, "error").s != ""
    ensures Truthy(v) ==> v == Field(data, "error")
  {
    var e := Field(data, "error");
    if e.Str? && e.s != "" then e else Null
  }

  /** `(typeof data === 'string' ? data : null)`. */
  function BodyText(data: JsValue): JsValue {
    if data.Str? then data else Null
  }

  /** The condition of the first branch: `data.success === false || (data.errorCode && data.success !== true)`. */
  predicate FlagsFailure(data: JsValue)
    requires !Nullish(data)
  {
    Field(data, "success") == Bool(false)
    || (Truthy(Field(data, "errorCode")) && Field(data, "success") != Bool(true))
  }

  /** The condition of the second branch: `data.code !== undefined && data.code !== 0`. */
  predicate HasNonZeroCode(data: JsValue)
    requires !Nullish(data)
  {
    Field(data, "code") != Undefined && Field(data, "code") != Num(0)
  }

  /** `parseInt(data.errorCode, 10)`, with NaN read as 0, or the status when there is no `errorCode`. */
  function ErrorCodeOf(data: JsValue, status: int): (c: int)
    requires !Nullish(data)
    ensures !Truthy(Field(data, "errorCode")) ==> c == (if status >= 400 then status else 0)
  {
    var ec := Field(data, "errorCode");
    if Truthy(ec) then
      match ParseInt(ToString(ec), Ten)
      case Some(n) => n
      case None => 0
    else if status >= 400 then status
    else 0
  }

  /**
   * `parseError(data, status)`. The body is never `undefined` or `null` here:
   * both callers read `data.success` first, which would already have thrown.
   */
  function ParseError(data: JsValue, status: int): (r: ApiError)
    requires !Nullish(data)
    ensures r.details == Some(data)
    ensures Truthy(r.message)
    ensures FlagsFailure(data) ==> r.code.Num?
    ensures !FlagsFailure(data) && !HasNonZeroCode(data) ==> r.code == Num(status)
  {
    var errorMessage := Field(data, "errorMessage");
    var message := Field(data, "message");
    if FlagsFailure(data) then
      ApiError(Num(ErrorCodeOf(data, status)),
               FirstTruthy([errorMessage, message, ErrorText(data), BodyText(data)], Str(DefaultMessage)),
               Some(data))
    else if HasNonZeroCode(data) then
      ApiError(Field(data, "code"),
               FirstTruthy([message, ErrorText(data), BodyText(data)], Str(DefaultMessage)),
               Some(data))
    else
      ApiError(Num(status),
               FirstTruthy([errorMessage, message, ErrorText(data), BodyText(data)],
                           Str(DefaultMessage + " (HTTP " + IntToString(status) + ")")),
               Some(data))
  }

  /** A numeric `errorCode`, as a string or as a number, becomes the code. */
  lemma NumericErrorCode(data: JsValue, status: int, n: int)
    requires !Nullish(data) && FlagsFailure(data)
    requires Field(data, "errorCode") == Str(IntToString(n)) || (n != 0 && Field(data, "errorCode") == Num(n))
    ensures ParseError(data, status).code == Num(n)
  {
    ParseIntOfIntToString(n, Ten);
  }

  /** An `errorCode` that does not start like a number gives code 0, whatever the status. */
  lemma NonNumericErrorCode(data: JsValue, status: int, s: string)
    requires !Nullish(data) && Field(data, "errorCode") == Str(s) && Field(data, "success") != Bool(true)
    requires s != [] && !IsJsSpace(s[0]) && !IsDigit(s[0]) && s[0] != '-' && s[0] != '+'
    ensures ParseError(data, status).code == Num(0)
  {
    ParseIntOfNonNumeric(s, Ten);
  }

  /** `success: false` without an `errorCode`: the status when it is 400 or more, else 0. */
  lemma StatusFallback(data: JsValue, status: int)
    requires !Nullish(data) && Field(data, "success") == Bool(false) && !Truthy(Field(data, "errorCode"))
    ensures ParseError(data, status).code == Num(if status >= 400 then status else 0)
  {
  }

  /** The first branch's message prefers `errorMessage`, then `message`, then a string `error`. */
  lemma FailureMessageOrder(data: JsValue, status: int)
    requires !Nullish(data) && FlagsFailure(data)
    ensures var m := ParseError(data, status).message;
      && (Truthy(Field(data, "errorMessage")) ==> m == Field(data, "errorMessage"))
      && (!Truthy(Field(data, "errorMessage")) && Truthy(Field(data, "message")) ==> m == Field(data, "message"))
      && (!Truthy(Field(data, "errorMessage")) && !Truthy(Field(data, "message")) && data.Obj?
          ==> m == if Truthy(ErrorText(data)) then Field(data, "error") else Str(DefaultMessage))
  {
    var vs := [Field(data, "errorMessage"), Field(data, "message"), ErrorText(data), BodyText(data)];
    assert !Truthy(vs[0]) ==> forall j | 0 <= j < 1 :: !Truthy(vs[j]);
    assert !Truthy(vs[0]) && !Truthy(vs[1]) ==> forall j | 0 <= j < 2 :: !Truthy(vs[j]);
    assert !Truthy(vs[0]) && !Truthy(vs[1]) && !Truthy(vs[2]) ==> forall j | 0 <= j < 3 :: !Truthy(vs[j]);
  }

  /** The `code` branch ignores `errorMessage`: the result keeps the body's code and does not read it. */
  lemma CodeBranchIgnoresErrorMessage(f: map<string, JsValue>, status: int, x: JsValue)
    requires !FlagsFailure(Obj(f)) && HasNonZeroCode(Obj(f))
    ensures var g := Obj(f["errorMessage" := x]);
      && !FlagsFailure(g) && HasNonZeroCode(g)
      && ParseError(g, status).code == ParseError(Obj(f), status).code == f["code"]
      && ParseError(g, status).message == ParseError(Obj(f), status).message
  {
    var g := Obj(f["errorMessage" := x]);
    assert Field(g, "success") == Field(Obj(f), "success");
    assert Field(g, "errorCode") == Field(Obj(f), "errorCode");
    assert Field(g, "code") == Field(Obj(f), "code");
    assert Field(g, "message") == Field(Obj(f), "message");
    assert Field(g, "error") == Field(Obj(f), "error");
  }

  /** The HTTP branch keeps the status as code, and its default message names it. */
  lemma HttpErrorMessage(f: map<string, JsValue>, status: int)
    requires !FlagsFailure(Obj(f)) && !HasNonZeroCode(Obj(f))
    requires !Truthy(Field(Obj(f), "errorMessage")) && !Truthy(Field(Obj(f), "message"))
    requires !Truthy(ErrorText(Obj(f)))
    ensures ParseError(Obj(f), status) ==
      ApiError(Num(status), Str("请求失败 (HTTP " + IntToString(status) + ")"), Some(Obj(f)))
  {
    var data := Obj(f);
    var vs := [Field(data, "errorMessage"), Field(data, "message"), ErrorText(data), BodyText(data)];
    assert BodyText(data) == Null;
    assert forall j | 0 <= j < |vs| :: !Truthy(vs[j]);
    assert DefaultMessage + " (HTTP " + IntToString(status) + ")" == "请求失败 (HTTP " + IntToString(status) + ")";
  }
}
