/** The helpers of lib/helpers.js: the password hash guard, the JSON body
    fallback, random identifiers and the SMS sender's validation and
    status classification. The HMAC, `JSON.parse`, `Math.random` and the
    HTTPS request to Twilio are foreign and enter as parameters. */
module Helpers {
  import opened JsValues
  import opened JsStrings

  // ---- hash ----

  /** `helpers.hash(v)`: the HMAC-SHA256 hex digest of a non-empty string
      under the configured secret, and `''` for anything else. `hmac`
      stands for `crypto.createHmac('sha256', secret).update(s).digest('hex')`. */
  function Hash(hmac: (string, string) -> string, secret: string, v: Value): (r: string)
    ensures !(v.Str? && v.s != "") ==> r == ""
    ensures v.Str? && v.s != "" ==> r == hmac(secret, v.s)
  {
    if v.Str? && |v.s| > 0 then hmac(secret, v.s) else ""
  }

  // ---- parseJsonToObject ----

  /** `helpers.parseJsonToObject(s)` as written. `parsed` is what
      `JSON.parse(s)` returns, or `None` when it throws. */
  function ParseJsonToObjectAsWritten(parsed: Option<Value>): (r: Value)
    ensures parsed.None? ==> r == Obj(map[])
    ensures parsed.Some? ==> r == parsed.value
  {
    match parsed
    case None => Obj(map[])
    case Some(v) => v
  }

  /** Reading a property of `null` or `undefined` throws a TypeError. */
  predicate PropertyAccessThrows(v: Value) {
    v.Null? || v.Undefined?
  }

  /** A request body of `null` parses, so the written helper hands `null` to
      the handler, whose first `data.payload.firstname` then throws. */
  lemma NullBodyIsNotAnObject()
    ensures PropertyAccessThrows(ParseJsonToObjectAsWritten(Some(Null)))
  {
  }

  /** What the helper's name promises and the handlers rely on: always an
      object, `{}` when parsing fails or yields something that is not a
      plain object (for which every property the handlers read is
      `undefined` anyway). */
  function ParseJsonToObject(parsed: Option<Value>): (r: Record)
    ensures parsed.None? ==> r == map[]
    ensures parsed.Some? && parsed.value.Obj? ==> r == parsed.value.fields
    ensures parsed.Some? && !parsed.value.Obj? ==> r == map[]
  {
    match parsed
    case Some(Obj(fields)) => fields
    case _ => map[]
  }

  /** The correction changes nothing where the written helper already gave
      an object. */
  lemma ParseJsonToObjectAgrees(parsed: Option<Value>)
    requires ParseJsonToObjectAsWritten(parsed).Obj?
    ensures Obj(ParseJsonToObject(parsed)) == ParseJsonToObjectAsWritten(parsed)
  {
  }

  // ---- createRandomString ----

  const PossibleCharacters: string := "abcdefghijklmnopqrstuvwxyz0123456789"

  /** The smallest integer not below `x`. */
  function Ceil(x: real): (r: int)
    ensures r as real >= x && (r - 1) as real < x
  {
    -((-x).Floor)
  }

  /** How many characters `createRandomString(v)` appends: its loop runs
      while `i < strLength`, so a fractional length rounds up, and a
      non-number or non-positive length gives none. */
  function RandomStringLength(strLength: Value): (r: nat)
    ensures (strLength.Num? && strLength.n > 0.0) ==> r as real >= strLength.n
    ensures !(strLength.Num? && strLength.n > 0.0) ==> r == 0
  {
    if strLength.Num? && strLength.n > 0.0 then Ceil(strLength.n) else 0
  }

  /** `helpers.createRandomString(strLength)`. Each character is an
      arbitrary pick from the alphabet (`Math.random` is not modelled). */
  method CreateRandomString(strLength: Value) returns (str: string)
    ensures |str| == RandomStringLength(strLength)
    ensures forall k: int :: strLength == Int(k) && k > 0 ==> |str| == k
    ensures !(strLength.Num? && strLength.n > 0.0) ==> str == ""
    ensures forall i :: 0 <= i < |str| ==> str[i] in PossibleCharacters
  {
    var n := if strLength.Num? && strLength.n > 0.0 then strLength.n else 0.0;
    str := "";
    if n > 0.0 {
      var i := 0;
      while (i as real) < n
        invariant 0 <= i <= RandomStringLength(strLength)
        invariant |str| == i
        invariant forall j :: 0 <= j < |str| ==> str[j] in PossibleCharacters
        decreases RandomStringLength(strLength) - i
      {
        var pick :| 0 <= pick < |PossibleCharacters|;
        str := str + [PossibleCharacters[pick]];
        i := i + 1;
      }
    }
  }

  // ---- sendTwilioSms ----

  /** The form-encoded message the helper posts: `To` is the phone with the
      `+1` prefix, `Body` the trimmed message. */
  datatype SmsRequest = SmsRequest(to: string, body: string)

  /** What the HTTPS request to api.twilio.com produced. */
  datatype HttpReply = Status(code: int) | ConnectionError

  /** The first argument the helper calls back with; `NoError` is `false`. */
  datatype SmsError =
    | NoError
    | InvalidParameters
    | BadStatus(code: int)
    | TransportFailure

  datatype SmsResult = SmsResult(request: Option<SmsRequest>, error: SmsError)

  /** `phone` as validated: a string ten characters long once trimmed. */
  function SmsPhone(phone: Value): (r: string)
    ensures r != "" ==> phone.Str? && r == Trim(phone.s) && |r| == 10
    ensures r == "" ==> !(phone.Str? && |Trim(phone.s)| == 10)
  {
    if phone.Str? && |Trim(phone.s)| == 10 then Trim(phone.s) else ""
  }

  /** `msg` as validated: a string of 1 to 1600 characters once trimmed. */
  function SmsMessage(msg: Value): (r: string)
    ensures r != "" ==> msg.Str? && r == Trim(msg.s) && 0 < |r| <= 1600
    ensures r == "" ==> !(msg.Str? && 0 < |Trim(msg.s)| <= 1600)
  {
    if msg.Str? && 0 < |Trim(msg.s)| <= 1600 then Trim(msg.s) else ""
  }

  /** Twilio accepted the message. */
  predicate SmsAccepted(status: int) {
    status == 200 || status == 201
  }

  /** `helpers.sendTwilioSms(phone, msg, callback)`: invalid parameters are
      reported without a request; otherwise the request is made and the
      outcome is an error unless the status is 200 or 201. */
  function SendTwilioSms(phone: Value, msg: Value, reply: HttpReply): (r: SmsResult)
    ensures r.request.None? <==> (SmsPhone(phone) == "" || SmsMessage(msg) == "")
    ensures r.request.None? ==> r.error == InvalidParameters
    ensures r.request.Some? ==>
      r.request.value == SmsRequest("+1" + Trim(phone.s), Trim(msg.s))
    ensures r.request.Some? ==>
      (r.error == NoError <==> reply.Status? && SmsAccepted(reply.code))
  {
    var p := SmsPhone(phone);
    var m := SmsMessage(msg);
    if p != "" && m != "" then
      var error :=
        match reply
        case Status(code) => if code == 200 || code == 201 then NoError else BadStatus(code)
        case ConnectionError => TransportFailure;
      SmsResult(Some(SmsRequest("+1" + p, m)), error)
    else
      SmsResult(None, InvalidParameters)
  }
}
