/**
 * The WhatsApp Cloud API client: the recipient number formatting and payload choice of
 * `sendMessage`, the subscription handshake `verifyWebhook`, and the message extraction of
 * `processWebhook`. The HTTP POST is the parameter `post`, which says what the request did.
 */
module WhatsAppService {
  import opened Common
  import opened JsValue

  const BusinessAccount: string := "whatsapp_business_account"
  const NotSentMessage: string := "Mesaj g\U{00F6}nderilemedi"

  // ---------------------------------------------------------------------------------------
  // Phone numbers

  /** `s.replace(/\D/g, '')`: the ASCII digits of `s`, in their order. */
  function DigitsOf(s: string): (d: string)
    ensures AllDigits(d) && |d| <= |s|
    ensures AllDigits(s) ==> d == s
  {
    if s == [] then []
    else if IsDigit(s[0]) then [s[0]] + DigitsOf(s[1..])
    else DigitsOf(s[1..])
  }

  /**
   * The number `sendMessage` sends to: the digits of `phone`, with a leading `0` replaced by
   * the country code `90`, and `90` put in front of any other number not already starting
   * with it.
   */
  function FormattedPhone(phone: string): (r: string)
    ensures AllDigits(r) && StartsWith(r, "90")
  {
    var digits := DigitsOf(phone);
    if StartsWith(digits, "0") then "90" + digits[1..]
    else if StartsWith(digits, "90") then digits
    else "90" + digits
  }

  /** A trunk-prefixed national number loses its `0` and gains `90`. */
  lemma TrunkZeroBecomesCountryCode(national: string)
    requires AllDigits(national)
    ensures FormattedPhone("0" + national) == "90" + national
  {
    assert DigitsOf("0" + national) == "0" + national;
  }

  /** Digits that already start with `90` are kept as they are. */
  lemma CountryCodeKept(digits: string)
    requires AllDigits(digits) && StartsWith(digits, "90")
    ensures FormattedPhone(digits) == digits
  {
    assert digits[0] == digits[..2][0] == '9';
    assert digits[..1] == [digits[0]];
  }

  /** Formatting a formatted number changes nothing. */
  lemma FormattedPhoneIdempotent(phone: string)
    ensures FormattedPhone(FormattedPhone(phone)) == FormattedPhone(phone)
  {
    var r := FormattedPhone(phone);
    assert DigitsOf(r) == r;
    assert r[..1] == "9";
  }

  lemma {:induction false} DigitsOfConcat(a: string, b: string)
    ensures DigitsOf(a + b) == DigitsOf(a) + DigitsOf(b)
  {
    if a != [] {
      assert (a + b)[0] == a[0] && (a + b)[1..] == a[1..] + b;
      DigitsOfConcat(a[1..], b);
    } else {
      assert a + b == b;
    }
  }

  /** A space or any other non-digit anywhere in the number does not change where it goes. */
  lemma NonDigitIgnored(a: string, c: char, b: string)
    requires !IsDigit(c)
    ensures FormattedPhone(a + [c] + b) == FormattedPhone(a + b)
  {
    DigitsOfConcat(a + [c], b);
    DigitsOfConcat(a, [c]);
    DigitsOfConcat(a, b);
    assert DigitsOf([c]) == [];
    assert DigitsOf(a) + [] == DigitsOf(a);
  }

  // ---------------------------------------------------------------------------------------
  // sendMessage

  datatype Content = Template(name: string, languageCode: string) | Text(body: string)

  /** The JSON body posted to `/messages`. */
  datatype Payload = Payload(product: string, to: string, content: Content)

  /** What the POST did: it answered with `response.data`, or it threw with a message. */
  datatype PostOutcome = Responded(data: Value) | PostThrew(message: string)

  datatype SendResult = MessageSent(messageId: Value) | SendFailed(error: string)

  /**
   * `response.data.messages && response.data.messages[0]`, then the result object. A read
   * that throws is caught, and the result carries `typeError`, the engine's message for it.
   */
  function SendOutcome(outcome: PostOutcome, typeError: string): (r: SendResult)
    ensures outcome.PostThrew? ==> r == SendFailed(outcome.message)
    ensures outcome.Responded? && (outcome.data.Undefined? || outcome.data.Null?) ==> r == SendFailed(typeError)
    ensures r.MessageSent? ==>
      && outcome.Responded? && outcome.data.Obj? && "messages" in outcome.data.fields
      && IsTruthy(outcome.data.fields["messages"])
    ensures outcome.Responded? && Get(outcome.data, "messages").Some? ==>
      var messages := Get(outcome.data, "messages").value;
      && (r.MessageSent? <==> IsTruthy(messages) && IsTruthy(At(messages, 0).value))
      && (r.MessageSent? ==> r.messageId == Get(At(messages, 0).value, "id").value)
      && (r.SendFailed? ==> r.error == NotSentMessage)
  {
    match outcome
    case PostThrew(message) => SendFailed(message)
    case Responded(data) =>
      var messages := Get(data, "messages");
      if messages.None? then SendFailed(typeError)
      else if !IsTruthy(messages.value) then SendFailed(NotSentMessage)
      else
        var first := At(messages.value, 0).value;
        if !IsTruthy(first) then SendFailed(NotSentMessage)
        else MessageSent(Get(first, "id").value)
  }

  /** A Cloud API answer listing the new message yields its id. */
  lemma AcceptedMessageYieldsId(id: string, typeError: string)
    ensures SendOutcome(Responded(Obj(map["messages" := Arr([Obj(map["id" := Str(id)])])])), typeError) == MessageSent(Str(id))
  {
    var data := Obj(map["messages" := Arr([Obj(map["id" := Str(id)])])]);
    assert Get(data, "messages") == Some(Arr([Obj(map["id" := Str(id)])]));
  }

  /** An answer without a `messages` list is a failure. */
  lemma AnswerWithoutMessagesFails(typeError: string)
    ensures SendOutcome(Responded(Obj(map[])), typeError) == SendFailed(NotSentMessage)
  {
  }

  /**
   * `sendMessage(phoneNumber, message, templateName)`: the number is reduced to digits and
   * given the `90` prefix step by step; a template payload (language `tr`) is built when a
   * template name is given, a text payload with the message otherwise.
   */
  method SendMessage(phone: string, message: string, templateName: Option<string>,
                     post: Payload -> PostOutcome, typeError: string)
    returns (payload: Payload, result: SendResult)
    ensures payload.product == "whatsapp" && payload.to == FormattedPhone(phone)
    ensures payload.content.Template? <==> Truthy(templateName)
    ensures payload.content.Template? ==> payload.content == Template(templateName.value, "tr")
    ensures payload.content.Text? ==> payload.content.body == message
    ensures result == SendOutcome(post(payload), typeError)
  {
    var formattedPhone := DigitsOf(phone);
    if StartsWith(formattedPhone, "0") {
      formattedPhone := "90" + formattedPhone[1..];
    } else if !StartsWith(formattedPhone, "90") {
      formattedPhone := "90" + formattedPhone;
    }
    if Truthy(templateName) {
      payload := Payload("whatsapp", formattedPhone, Template(templateName.value, "tr"));
    } else {
      payload := Payload("whatsapp", formattedPhone, Text(message));
    }
    result := SendOutcome(post(payload), typeError);
  }

  // ---------------------------------------------------------------------------------------
  // Webhooks

  /** The answer to the subscription handshake: the challenge (possibly undefined), or null. */
  datatype Verification = Answer(challenge: Option<string>) | NullAnswer

  /**
   * `verifyWebhook(mode, token, challenge)` with the configured `verifyToken`; an absent
   * query parameter or an unset setting is `None`, and `===` compares them as values.
   */
  function VerifyWebhook(mode: Option<string>, token: Option<string>, challenge: Option<string>,
                         verifyToken: Option<string>): (r: Verification)
    ensures r.Answer? <==> mode == Some("subscribe") && token == verifyToken
    ensures r.Answer? ==> r.challenge == challenge
  {
    if mode == Some("subscribe") && token == verifyToken then Answer(challenge) else NullAnswer
  }

  /** With the setting unset, a subscribe request that sends no token is answered. */
  lemma UnsetTokenAcceptsMissingToken(challenge: Option<string>)
    ensures VerifyWebhook(Some("subscribe"), None, challenge, None) == Answer(challenge)
  {
  }

  /** The fields `processWebhook` reports for the first incoming message. */
  datatype WebhookMessage = WebhookMessage(from: Value, messageType: Value, timestamp: Value, text: Value)

  /** `message.text ? message.text.body : null`. */
  function MessageText(message: Value): Option<Value>
  {
    var text := Get(message, "text");
    if text.None? then None
    else if IsTruthy(text.value) then Get(text.value, "body")
    else Some(Null)
  }

  /**
   * `processWebhook(body)`: for a business-account notification whose first change carries
   * a non-empty `messages` list, the sender, type, timestamp and text body of the first
   * message; null for anything else, including a body whose shape makes a read throw.
   */
  function ProcessWebhook(body: Value): (r: Option<WebhookMessage>)
    ensures r.Some? ==> Get(body, "object") == Some(Str(BusinessAccount))
    ensures r.Some? ==> body.Obj? && "entry" in body.fields
    ensures r.Some? <==>
      && Get(body, "object") == Some(Str(BusinessAccount))
      && HasMessages(ChangeMessages(body))
      && !(At(ChangeMessages(body).value, 0).value.Undefined? || At(ChangeMessages(body).value, 0).value.Null?)
    ensures r.Some? ==>
      var messages := ChangeMessages(body).value;
      && (messages.Arr? ==> |messages.items| > 0)
      && var message := At(messages, 0).value;
      && r.value.from == Get(message, "from").value
      && r.value.messageType == Get(message, "type").value
      && r.value.timestamp == Get(message, "timestamp").value
      && (!IsTruthy(Get(message, "text").value) ==> r.value.text == Null)
      && (IsTruthy(Get(message, "text").value) ==> r.value.text == Get(Get(message, "text").value, "body").value)
  {
    var kind := Get(body, "object");
    if kind.None? || kind.value != Str(BusinessAccount) then None
    else
      var messages := ChangeMessages(body);
      if !HasMessages(messages) then None
      else
        var message := At(messages.value, 0).value;
        var from := Get(message, "from");
        var messageType := Get(message, "type");
        var timestamp := Get(message, "timestamp");
        var text := MessageText(message);
        if from.None? || messageType.None? || timestamp.None? || text.None? then None
        else Some(WebhookMessage(from.value, messageType.value, timestamp.value, text.value))
  }

  /** `body.entry[0].changes[0].value.messages`, `None` when one of the reads throws. */
  function ChangeMessages(body: Value): Option<Value>
  {
    var value := Field(Index(Field(Index(Field(Some(body), "entry"), 0), "changes"), 0), "value");
    Field(value, "messages")
  }

  /** `value.messages && value.messages.length > 0`. */
  predicate HasMessages(messages: Option<Value>)
  {
    messages.Some? && IsTruthy(messages.value) && Positive(Get(messages.value, "length").value)
  }

  /** The documented notification envelope around one change `value`. */
  function Notification(value: Value): Value
  {
    Obj(map["object" := Str(BusinessAccount),
            "entry" := Arr([Obj(map["changes" := Arr([Obj(map["value" := value])])])])])
  }

  /** An incoming message of type `kind`, with a text body when `body` is given. */
  function IncomingMessage(from: string, kind: string, timestamp: string, body: Option<string>): Value
  {
    var fields := map["from" := Str(from), "type" := Str(kind), "timestamp" := Str(timestamp)];
    Obj(if body.Some? then fields["text" := Obj(map["body" := Str(body.value)])] else fields)
  }

  /** The first incoming message of a notification is reported, its text null when it has none. */
  lemma FirstMessageExtracted(from: string, kind: string, timestamp: string, body: Option<string>, rest: seq<Value>)
    ensures var message := IncomingMessage(from, kind, timestamp, body);
      ProcessWebhook(Notification(Obj(map["messages" := Arr([message] + rest)])))
      == Some(WebhookMessage(Str(from), Str(kind), Str(timestamp), if body.Some? then Str(body.value) else Null))
  {
    var message := IncomingMessage(from, kind, timestamp, body);
    var value := Obj(map["messages" := Arr([message] + rest)]);
    var n := Notification(value);
    assert Field(Some(n), "entry") == Some(Arr([Obj(map["changes" := Arr([Obj(map["value" := value])])])]));
    assert Field(Index(Field(Index(Field(Some(n), "entry"), 0), "changes"), 0), "value") == Some(value);
    assert message.Obj? && "text" in message.fields <==> body.Some?;
  }

  /** A status callback, which has no `messages`, is ignored. */
  lemma StatusUpdateIgnored(statuses: seq<Value>)
    ensures ProcessWebhook(Notification(Obj(map["statuses" := Arr(statuses)]))) == None
  {
    var value := Obj(map["statuses" := Arr(statuses)]);
    var n := Notification(value);
    assert Field(Index(Field(Index(Field(Some(n), "entry"), 0), "changes"), 0), "value") == Some(value);
  }

  /** A business-account body without `entry` makes `body.entry[0]` throw, and yields null. */
  lemma MissingEntryYieldsNull()
    ensures ProcessWebhook(Obj(map["object" := Str(BusinessAccount)])) == None
  {
  }

  /** A notification for any other object is ignored. */
  lemma OtherObjectIgnored(body: Value)
    requires Get(body, "object") != Some(Str(BusinessAccount))
    ensures ProcessWebhook(body) == None
  {
  }
}
