/**
 * The SMS gateway client: the phone normalisation of `sendSMS` and `sendSMSJSON` and the
 * classification of what the gateway answered. The HTTP requests are the parameters `get`
 * and `post`, which say what the request did; `typeError` is the engine's message for a
 * TypeError the classification throws and catches.
 */
module SmsService {
  import opened Common
  import opened JsValue

  const UnknownError: string := "Bilinmeyen hata"
  const InvalidApiResponse: string := "Ge\U{00E7}ersiz API response"
  const InvalidResponse: string := "Ge\U{00E7}ersiz response"

  /** The result object: success with an order id, failure with an error, or an exception. */
  datatype SmsResult = SmsSent(orderId: Value) | SmsFailed(error: Value) | Uncaught

  /** `if (phone.startsWith('0')) phone = phone.substring(1)`: one leading zero goes. */
  function StripLeadingZero(phone: string): (r: string)
    ensures StartsWith(phone, "0") ==> "0" + r == phone
    ensures !StartsWith(phone, "0") ==> r == phone
  {
    if StartsWith(phone, "0") then phone[1..] else phone
  }

  /** Only the first zero is removed: `00\U{2026}` keeps its second zero. */
  lemma OnlyOneZeroStripped(rest: string)
    ensures StripLeadingZero("0" + rest) == rest
    ensures StripLeadingZero("00" + rest) == "0" + rest
  {
    assert ("0" + rest)[..1] == "0";
    assert ("00" + rest)[..1] == "0";
    assert ("00" + rest)[1..] == "0" + rest;
  }

  // ---------------------------------------------------------------------------------------
  // The regular expressions `/<code>(\d+)<\/code>/`, `/<id>(\d+)<\/id>/` and
  // `/<message>(.*?)<\/message>/`: the leftmost match and its capture.

  /** A match at `i` with an `n`-digit capture: `open`, the digits, `close`. */
  predicate DigitTagAt(s: string, i: nat, open: string, close: string, n: nat)
  {
    && i + |open| + n <= |s| && StartsWithAt(s, i, open) && n >= 1
    && (forall k :: i + |open| <= k < i + |open| + n ==> IsDigit(s[k]))
    && StartsWithAt(s, i + |open| + n, close)
  }

  /** The capture length of a match at `i`: the whole run of digits after `open`. */
  function CaptureAt(s: string, i: nat, open: string, close: string): (r: Option<nat>)
    requires i <= |s| && close != [] && !IsDigit(close[0])
    ensures r.Some? ==> DigitTagAt(s, i, open, close, r.value)
    ensures forall n: nat :: DigitTagAt(s, i, open, close, n) ==> r == Some(n)
  {
    if StartsWithAt(s, i, open) then
      var k := i + |open|;
      var n := DigitRun(s[k..], 10);
      WholeRunMatches(s, i, open, close);
      OnlyWholeRun(s, i, open, close);
      if n >= 1 && StartsWithAt(s, k + n, close) then Some(n) else None
    else None
  }

  /** The whole run of digits after `open`, when `close` follows it, is a match. */
  lemma WholeRunMatches(s: string, i: nat, open: string, close: string)
    requires i <= |s| && StartsWithAt(s, i, open)
    ensures var k := i + |open|;
      var n := DigitRun(s[k..], 10);
      n >= 1 && StartsWithAt(s, k + n, close) ==> DigitTagAt(s, i, open, close, n)
  {
    var k := i + |open|;
    var t := s[k..];
    var n := DigitRun(t, 10);
    forall j | k <= j < k + n
      ensures IsDigit(s[j])
    {
      assert s[j] == t[j - k];
      assert DigitValue(t[j - k], 10) >= 0;
    }
  }

  /**
   * At one position the capture, if any, is the whole run of digits after `open`: `close`
   * starts with a non-digit, so a shorter or longer run cannot be followed by it.
   */
  lemma OnlyWholeRun(s: string, i: nat, open: string, close: string)
    requires i <= |s| && close != [] && !IsDigit(close[0]) && StartsWithAt(s, i, open)
    ensures forall n: nat :: DigitTagAt(s, i, open, close, n) ==> n == DigitRun(s[i + |open|..], 10)
  {
    forall n: nat | DigitTagAt(s, i, open, close, n)
      ensures n == DigitRun(s[i + |open|..], 10)
    {
      var k := i + |open|;
      var t := s[k..];
      assert n < |t| && t[n] == s[k + n] == close[0] by {
        assert s[k + n..][0] == close[0];
      }
      forall m | 0 <= m < n
        ensures IsDigit(t[m])
      {
        assert t[m] == s[k + m];
      }
      RunEndsAtNonDigit(t, n);
    }
  }

  /** A digit run ends at the first non-digit. */
  lemma RunEndsAtNonDigit(t: string, n: nat)
    requires n < |t| && !IsDigit(t[n]) && forall m :: 0 <= m < n ==> IsDigit(t[m])
    ensures DigitRun(t, 10) == n
  {
    var run := DigitRun(t, 10);
    assert DigitValue(t[n], 10) < 0;
    assert run <= n;
    assert run < |t| && DigitValue(t[run], 10) < 0;
  }

  /** The leftmost match at or after `from`, as its position and the length of its capture. */
  function FindDigitTag(s: string, open: string, close: string, from: nat): (r: Option<(nat, nat)>)
    requires from <= |s| && close != [] && !IsDigit(close[0])
    ensures r.Some? ==> from <= r.value.0 && DigitTagAt(s, r.value.0, open, close, r.value.1)
    ensures r.Some? ==> forall j: nat, n: nat :: from <= j < r.value.0 ==> !DigitTagAt(s, j, open, close, n)
    ensures r.None? ==> forall j: nat, n: nat :: from <= j ==> !DigitTagAt(s, j, open, close, n)
    decreases |s| - from
  {
    var here := CaptureAt(s, from, open, close);
    if here.Some? then Some((from, here.value))
    else if from == |s| then None
    else FindDigitTag(s, open, close, from + 1)
  }

  /** `s.match(/open(\d+)close/)?.[1]`: the digits of the leftmost match, if there is one. */
  function DigitTag(s: string, open: string, close: string): Option<string>
    requires open != [] && close != [] && !IsDigit(close[0])
  {
    var m := FindDigitTag(s, open, close, 0);
    if m.Some? then Some(s[m.value.0 + |open|..m.value.0 + |open| + m.value.1]) else None
  }

  /**
   * A match of `open(.*?)close` at `i` with an `n`-character capture: no line terminator in
   * the capture, and the first `close` after `open`.
   */
  predicate LazyTagAt(s: string, i: nat, open: string, close: string, n: nat)
  {
    && i + |open| + n <= |s| && StartsWithAt(s, i, open) && StartsWithAt(s, i + |open| + n, close)
    && (forall k :: i + |open| <= k < i + |open| + n ==> !IsLineTerminator(s[k]))
    && (forall m :: i + |open| <= m < i + |open| + n ==> !StartsWithAt(s, m, close))
  }

  /** The first `close` at or after `from` that no line terminator precedes. */
  function FindClose(s: string, from: nat, close: string): (r: Option<nat>)
    requires from <= |s|
    ensures r.Some? ==> from <= r.value <= |s| && StartsWithAt(s, r.value, close)
    ensures r.Some? ==> forall k :: from <= k < r.value ==> !IsLineTerminator(s[k]) && !StartsWithAt(s, k, close)
    ensures r.None? ==> forall m :: from <= m <= |s| && StartsWithAt(s, m, close) ==>
      exists k :: from <= k < m && IsLineTerminator(s[k])
    decreases |s| - from
  {
    if StartsWithAt(s, from, close) then Some(from)
    else if from == |s| || IsLineTerminator(s[from]) then None
    else FindClose(s, from + 1, close)
  }

  /** The leftmost match at or after `from`, as its position and the length of its capture. */
  function FindLazyTag(s: string, open: string, close: string, from: nat): (r: Option<(nat, nat)>)
    requires from <= |s| && open != []
    ensures r.Some? ==> from <= r.value.0 && LazyTagAt(s, r.value.0, open, close, r.value.1)
    ensures r.Some? ==> forall j: nat, n: nat :: from <= j < r.value.0 ==> !LazyTagAt(s, j, open, close, n)
    ensures r.None? ==> forall j: nat, n: nat :: from <= j ==> !LazyTagAt(s, j, open, close, n)
    decreases |s| - from
  {
    if from == |s| then None
    else
      var c := if StartsWithAt(s, from, open) then FindClose(s, from + |open|, close) else None;
      if c.Some? then Some((from, c.value - from - |open|))
      else
        assert forall n: nat :: !LazyTagAt(s, from, open, close, n);
        FindLazyTag(s, open, close, from + 1)
  }

  /** `s.match(/open(.*?)close/)?.[1]`: the capture of the leftmost match, if there is one. */
  function LazyTag(s: string, open: string, close: string): Option<string>
    requires open != []
  {
    var m := FindLazyTag(s, open, close, 0);
    if m.Some? then Some(s[m.value.0 + |open|..m.value.0 + |open| + m.value.1]) else None
  }

  /** `s.split(':')[0]`: the text before the first colon. */
  function FirstSegment(s: string): (r: string)
    ensures ':' !in r
    ensures ':' in s ==> StartsWith(s, r + ":")
    ensures ':' !in s ==> r == s
  {
    if s == [] then []
    else if s[0] == ':' then []
    else
      var rest := FirstSegment(s[1..]);
      assert s == [s[0]] + s[1..];
      [s[0]] + rest
  }

  // ---------------------------------------------------------------------------------------
  // sendSMS

  /** The answer `response.data` of the GET request when it is a string. */
  function ClassifyText(s: string): (r: SmsResult)
    ensures Contains(s, "<response>") ==>
      (r.SmsSent? <==> DigitTag(s, "<code>", "</code>") == Some("200"))
    ensures Contains(s, "<response>") && r.SmsSent? ==>
      r.orderId == (match DigitTag(s, "<id>", "</id>") case Some(id) => Str(id) case None => Null)
    ensures Contains(s, "<response>") && !r.SmsSent? ==>
      r == SmsFailed(Str(match LazyTag(s, "<message>", "</message>") case Some(m) => m case None => UnknownError))
    ensures !Contains(s, "<response>") && ':' in s ==>
      && (r.SmsSent? <==> FirstSegment(s) != "" && JsParseInt(FirstSegment(s)).Some? && JsParseInt(FirstSegment(s)).value > 0)
      && (r.SmsSent? ==> r.orderId == Str(FirstSegment(s)))
      && (!r.SmsSent? ==> r == SmsFailed(Str(s)))
    ensures !Contains(s, "<response>") && ':' !in s ==> r == SmsFailed(Str(InvalidApiResponse))
  {
    if Contains(s, "<response>") then
      var code := DigitTag(s, "<code>", "</code>");
      if code == Some("200") then
        var id := DigitTag(s, "<id>", "</id>");
        SmsSent(if id.Some? then Str(id.value) else Null)
      else
        var message := LazyTag(s, "<message>", "</message>");
        SmsFailed(Str(if message.Some? then message.value else UnknownError))
    else if ':' in s then
      assert Contains(s, ":") <==> ':' in s by {
        if ':' in s {
          var i :| 0 <= i < |s| && s[i] == ':';
          assert StartsWithAt(s, i, ":");
        }
      }
      var first := FirstSegment(s);
      var n := JsParseInt(first);
      if first != "" && n.Some? && n.value > 0 then SmsSent(Str(first)) else SmsFailed(Str(s))
    else SmsFailed(Str(InvalidApiResponse))
  }

  /** The first segment of `a:rest` is `a` when `a` has no colon. */
  lemma {:induction false} FirstSegmentBeforeColon(a: string, rest: string)
    requires ':' !in a
    ensures FirstSegment(a + ":" + rest) == a
  {
    if a != [] {
      assert (a + ":" + rest)[1..] == a[1..] + ":" + rest;
      FirstSegmentBeforeColon(a[1..], rest);
    }
  }

  /** A text without `<` contains no tag. */
  lemma NoTagWithoutBracket(s: string, tag: string)
    requires '<' !in s && tag != [] && tag[0] == '<'
    ensures !Contains(s, tag)
  {
    forall i | 0 <= i <= |s|
      ensures !StartsWithAt(s, i, tag)
    {
      assert i < |s| ==> s[i..][0] == s[i] != '<';
    }
  }

  /** The older `id:message` answer with a positive id is a success carrying that id. */
  lemma ColonAnswerWithPositiveId(id: nat, rest: string)
    requires id > 0 && '<' !in rest
    ensures ClassifyText(NatToString(id) + ":" + rest) == SmsSent(Str(NatToString(id)))
  {
    var digits := NatToString(id);
    var s := digits + ":" + rest;
    assert s[|digits|] == ':';
    assert ':' !in digits && '<' !in digits by {
      assert forall i :: 0 <= i < |digits| ==> IsDigit(digits[i]);
    }
    assert '<' !in s by {
      assert forall c :: c in s ==> c in digits || c == ':' || c in rest;
    }
    NoTagWithoutBracket(s, "<response>");
    FirstSegmentBeforeColon(digits, rest);
    ParseIntOfDecimal(id);
  }

  /** The whole `response.data` of the GET request: a string, or a parsed body. */
  function ClassifyGetData(data: Value, typeError: string): (r: SmsResult)
    ensures data.Str? ==> r == ClassifyText(data.s)
    ensures data.Obj? || (data.Num? && data.n != 0.0) || data == Bool(true) ==> r == SmsFailed(Str(typeError))
    ensures !IsTruthy(data) ==> r == SmsFailed(Str(InvalidApiResponse))
  {
    match data
    case Str(s) => ClassifyText(s)
    case Arr(items) =>
      if Str("<response>") in items then SmsFailed(Str(typeError)) else SmsFailed(Str(InvalidApiResponse))
    case Obj(_) => SmsFailed(Str(typeError))
    case Num(n) => if n != 0.0 then SmsFailed(Str(typeError)) else SmsFailed(Str(InvalidApiResponse))
    case Bool(b) => if b then SmsFailed(Str(typeError)) else SmsFailed(Str(InvalidApiResponse))
    case _ => SmsFailed(Str(InvalidApiResponse))
  }

  /**
   * What the HTTP client did: it answered with `response.data`, or it threw. A thrown error
   * carries `error.response.data` when the gateway answered with an error status
   * (`Some`), and its message.
   */
  datatype HttpOutcome = Answered(data: Value) | Threw(responseData: Option<Value>, message: string)

  /** `error.response?.data || error.message`. */
  function FallbackError(responseData: Option<Value>, message: string): Value
  {
    Or(if responseData.Some? then responseData.value else Undefined, Str(message))
  }

  /**
   * The `catch` of `sendSMS`: the `<message>` of an XML error body, otherwise the body or
   * the error's message. Calling `includes` or `match` on a body that lacks them throws out
   * of the handler.
   */
  function CatchGet(responseData: Option<Value>, message: string): (r: SmsResult)
    ensures r.SmsSent? == false
    ensures responseData.None? ==> r == SmsFailed(Str(message))
    ensures responseData.Some? && responseData.value.Str? && Contains(responseData.value.s, "<message>")
            && LazyTag(responseData.value.s, "<message>", "</message>").Some? ==>
      r == SmsFailed(Str(LazyTag(responseData.value.s, "<message>", "</message>").value))
    ensures r.SmsFailed? && !(responseData.Some? && responseData.value.Str?
                              && Contains(responseData.value.s, "<message>")
                              && LazyTag(responseData.value.s, "<message>", "</message>").Some?) ==>
      r.error == (if responseData.Some? && IsTruthy(responseData.value) then responseData.value else Str(message))
    ensures r.Uncaught? <==>
      && responseData.Some? && IsTruthy(responseData.value) && !responseData.value.Str?
      && (responseData.value.Arr? ==> Str("<message>") in responseData.value.items)
  {
    if responseData.Some? && IsTruthy(responseData.value) then
      match responseData.value
      case Str(s) =>
        var m := LazyTag(s, "<message>", "</message>");
        if Contains(s, "<message>") && m.Some? then SmsFailed(Str(m.value))
        else SmsFailed(FallbackError(responseData, message))
      case Arr(items) =>
        if Str("<message>") in items then Uncaught else SmsFailed(FallbackError(responseData, message))
      case _ => Uncaught
    else SmsFailed(FallbackError(responseData, message))
  }

  /** The request sent: the recipient after normalisation and the text. */
  datatype SmsRequest = SmsRequest(recipient: string, text: string)

  /**
   * `sendSMS(phone, message)`: the leading zero is dropped from `phone` in place, the GET
   * request is made, and its answer or error is classified.
   */
  method SendSms(phone: string, message: string, get: SmsRequest -> HttpOutcome, typeError: string)
    returns (request: SmsRequest, result: SmsResult)
    ensures request == SmsRequest(StripLeadingZero(phone), message)
    ensures get(request).Answered? ==> result == ClassifyGetData(get(request).data, typeError)
    ensures get(request).Threw? ==> result == CatchGet(get(request).responseData, get(request).message)
  {
    var p := phone;
    if StartsWith(p, "0") {
      p := p[1..];
    }
    request := SmsRequest(p, message);
    var outcome := get(request);
    match outcome
    case Answered(data) =>
      result := ClassifyGetData(data, typeError);
    case Threw(responseData, errorMessage) =>
      result := CatchGet(responseData, errorMessage);
  }

  // ---------------------------------------------------------------------------------------
  // sendSMSJSON

  /** `response.data.response.status.code`, or `None` when a read on the way throws. */
  function StatusCode(data: Value): Option<Value>
  {
    Field(Field(Field(Some(data), "response"), "status"), "code")
  }

  /**
   * The answer of the JSON POST: success exactly when `response.status.code` is the string
   * `'200'`, with `response.order?.id`; the status message otherwise; `Ge\U{00E7}ersiz response`
   * when there is no `response`.
   */
  function ClassifyJsonData(data: Value, typeError: string): (r: SmsResult)
    ensures r.SmsSent? <==> IsTruthy(data) && IsTruthy(Get(data, "response").value) && StatusCode(data) == Some(Str("200"))
    ensures r.SmsSent? ==> r.orderId == OptionalGet(Get(Get(data, "response").value, "order").value, "id")
    ensures !IsTruthy(data) ==> r == SmsFailed(Str(InvalidResponse))
    ensures r != Uncaught
  {
    if !IsTruthy(data) then SmsFailed(Str(InvalidResponse))
    else
      var response := Get(data, "response").value;
      if !IsTruthy(response) then SmsFailed(Str(InvalidResponse))
      else
        var status := Get(response, "status").value;
        var code := Get(status, "code");
        if code.None? then SmsFailed(Str(typeError))
        else if code.value == Str("200") then SmsSent(OptionalGet(Get(response, "order").value, "id"))
        else SmsFailed(Get(status, "message").value)
  }

  /** A numeric code 200 is not the string `'200'`, so such an answer counts as a failure. */
  lemma NumericCodeIsFailure(typeError: string)
    ensures ClassifyJsonData(Obj(map["response" := Obj(map["status" := Obj(map["code" := Num(200.0)])])]), typeError).SmsFailed?
  {
    var data := Obj(map["response" := Obj(map["status" := Obj(map["code" := Num(200.0)])])]);
    assert StatusCode(data) == Some(Num(200.0));
  }

  /**
   * `sendSMSJSON(phone, message)`: the same normalisation, the POST, and the classification;
   * its `catch` reports `error.response?.data || error.message`.
   */
  method SendSmsJson(phone: string, message: string, post: SmsRequest -> HttpOutcome, typeError: string)
    returns (request: SmsRequest, result: SmsResult)
    ensures request == SmsRequest(StripLeadingZero(phone), message)
    ensures post(request).Answered? ==> result == ClassifyJsonData(post(request).data, typeError)
    ensures post(request).Threw? ==>
      result == SmsFailed(FallbackError(post(request).responseData, post(request).message))
  {
    var p := phone;
    if StartsWith(p, "0") {
      p := p[1..];
    }
    request := SmsRequest(p, message);
    var outcome := post(request);
    match outcome
    case Answered(data) =>
      result := ClassifyJsonData(data, typeError);
    case Threw(responseData, errorMessage) =>
      result := SmsFailed(FallbackError(responseData, errorMessage));
  }
}
