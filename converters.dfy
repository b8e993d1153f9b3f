/** The `converters` table: from the inbound headers, path segments and
    decoded body to an upstream descriptor, or to nothing. */
module Converters {
  import opened Js
  import opened Foreign
  import opened Paths

  /** An outbound header value: a string, or the number stored as
      Content-Length. */
  datatype HeaderValue = Text(text: string) | Length(count: nat)

  /** The object a converter returns. Absent fields are `undefined`. */
  datatype Upstream = Upstream(
    url: string,
    httpMethod: Option<string>,
    headers: Option<map<string, HeaderValue>>,
    format: Option<string>,
    data: Value,
    invalid: Option<string>)

  /** What a converter call amounts to: the SNS confirmation GET it issued,
      if any, and its return value, where None is `null`. */
  datatype Converted = Converted(confirm: Option<string>, upstream: Option<Upstream>)

  datatype Converter = Test | SnsToSlack

  /** What `converters[name]` finds: one of the two converters, a built-in
      inherited from Object.prototype, or `undefined`. A built-in is truthy,
      so it is called as a converter. Whatever it returns or throws, the
      request then ends in an uncaught TypeError: it throws itself, or
      returns something whose `url` is not a string for `url.parse`, or
      returns the request object, which `JSON.stringify` cannot serialise. */
  datatype Entry = Own(converter: Converter) | Inherited(name: string) | Absent

  /** `converters[name]`. */
  function Lookup(name: string): (e: Entry)
    ensures e == Own(Test) <==> name == "test"
    ensures e == Own(SnsToSlack) <==> name == "sns2slack"
    ensures e.Inherited? <==> name in ObjectPrototypeNames
    ensures e.Inherited? ==> e.name == name
    ensures e.Absent? <==> name != "test" && name != "sns2slack" && name !in ObjectPrototypeNames
  {
    if name == "test" then Own(Test)
    else if name == "sns2slack" then Own(SnsToSlack)
    else if name in ObjectPrototypeNames then Inherited(name)
    else Absent
  }

  /** `request.headers[name]`; Node stores inbound header names in lower case. */
  function Header(headers: map<string, string>, name: string): (h: Option<string>)
    ensures h.Some? <==> name in headers
    ensures h.Some? ==> h.value == headers[name]
  {
    if name in headers then Some(headers[name]) else None
  }

  /** A header concatenated into a string: an absent one reads "undefined". */
  function HeaderText(h: Option<string>): (t: string)
    ensures h.None? ==> t == "undefined"
    ensures h.Some? ==> t == h.value
  {
    match h
    case None => "undefined"
    case Some(s) => s
  }

  const RequestBinBase := "http://requestb.in/"
  const SlackBase := "https://hooks.slack.com/services/"
  const UnidentifiedOpen := "[Unidentified Notification]\n-------------------------\n\n"
  const UnidentifiedClose := "\n-------------------------"

  /** The descriptor the `test` converter returns: the decoded body, as JSON,
      to the `x-target-url` header when that is non-empty and otherwise to
      the request bin followed by the path suffix. */
  function TestConversion(headers: map<string, string>, segments: seq<string>, data: Value): (u: Upstream)
    ensures u.data == data && u.format == Some("json")
    ensures u.httpMethod.None? && u.headers.None? && u.invalid.None?
    ensures "x-target-url" in headers && headers["x-target-url"] != "" ==> u.url == headers["x-target-url"]
    ensures ("x-target-url" !in headers || headers["x-target-url"] == "") ==>
      RequestBinBase <= u.url && u.url[|RequestBinBase|..] == Suffix(segments)
  {
    var target := Header(headers, "x-target-url");
    var url := if target.Some? && target.value != "" then target.value else RequestBinBase + Suffix(segments);
    Upstream(url, None, None, Some("json"), data, None)
  }

  /** The descriptor `sns2slack` returns in every branch that returns one. */
  function SlackMessage(url: string, text: Value): Upstream {
    Upstream(url, None, None, Some("json"), Obj(map["text" := text]), None)
  }

  /** `if (typeof data == 'string') data = JSON.parse(data)`: a string is
      replaced by what it parses to, anything else is kept, and only a string
      that is not JSON fails. */
  function Reparse(lib: Lib, data: Value): (r: Result<Value>)
    ensures r.Err? <==> data.Str? && lib.jsonParse(data.s).None?
    ensures r.Err? ==> r.fault == JsonSyntax
    ensures r.Ok? && data.Str? ==> lib.jsonParse(data.s) == Some(r.value)
    ensures !data.Str? ==> r == Ok(data)
  {
    if data.Str? then
      match lib.jsonParse(data.s)
      case None => Err(JsonSyntax)
      case Some(v) => Ok(v)
    else Ok(data)
  }

  /** The Slack text for a Notification: subject and message joined by a
      blank line when both are truthy, the truthy one of them otherwise, and
      a marked block holding the whole payload as JSON when neither is. The
      text is truthy whenever it is produced, so no notification is posted
      empty or dropped. */
  function NotificationText(lib: Lib, body: Value, subject: Value, message: Value): (r: Result<Value>)
    ensures Truthy(subject) && Truthy(message) && subject.Str? && message.Str? ==>
      r == Ok(Str(subject.s + "\n\n" + message.s))
    ensures Truthy(subject) && !Truthy(message) ==> r == Ok(subject)
    ensures !Truthy(subject) && Truthy(message) ==> r == Ok(message)
    ensures !Truthy(subject) && !Truthy(message) ==>
      r == Ok(Str(UnidentifiedOpen + lib.jsonStringify(body) + UnidentifiedClose))
    ensures Truthy(subject) && Truthy(message) ==> (r.Err? <==> Trap(subject) || Trap(message))
    ensures Truthy(subject) && Truthy(message) && r.Ok? ==>
      r == Ok(Str(ToText(lib.numberText, subject).value + "\n\n" + ToText(lib.numberText, message).value))
    ensures r.Err? ==> Truthy(subject) && Truthy(message) && r.fault == NoPrimitive
    ensures r.Ok? ==> Truthy(r.value)
  {
    if Truthy(subject) || Truthy(message) then
      if Truthy(subject) && Truthy(message) then
        var s :- ToText(lib.numberText, subject);
        var m :- ToText(lib.numberText, message);
        Ok(Str(s + "\n\n" + m))
      else Ok(if Truthy(message) then message else subject)
    else Ok(Str(UnidentifiedOpen + lib.jsonStringify(body) + UnidentifiedClose))
  }

  /** The `sns2slack` converter. The message type and topic come from the
      `x-amz-sns-message-type` and `x-amz-sns-topic-arn` headers; only
      `SubscribeURL`, `Subject` and `Message` are read from the body. A
      confirmation GET is issued only for a SubscriptionConfirmation, to a
      URL the https client accepts, and the faults it can throw are the
      parse, the read of a property of a null or undefined body, the string
      conversions, and the confirmation URL. */
  function SnsConversion(lib: Lib, headers: map<string, string>, segments: seq<string>, data: Value): (r: Result<Converted>)
    ensures r.Ok? && r.value.confirm.Some? ==>
      && Header(headers, "x-amz-sns-message-type") == Some("SubscriptionConfirmation")
      && ClientAccepts("https:", lib.urlParse(r.value.confirm.value).protocol)
    ensures r.Err? ==>
      || r.fault == JsonSyntax || r.fault == NoPrimitive || r.fault == UrlNotString
      || r.fault == NullishProperty("SubscribeURL") || r.fault == NullishProperty("Subject")
      || (r.fault.UnsupportedProtocol? && r.fault.protocol != "https:")
  {
    var body :- Reparse(lib, data);
    var url := SlackBase + Suffix(segments);
    var snsType := Header(headers, "x-amz-sns-message-type");
    var topic := HeaderText(Header(headers, "x-amz-sns-topic-arn"));
    if snsType == Some("UnsubscribeConfirmation") then
      Ok(Converted(None, Some(SlackMessage(url, Str("Unsubscribed from Amazon SNS topic \"" + topic + "\".")))))
    else if snsType == Some("SubscriptionConfirmation") then
      var subscribeUrl :- Get(body, "SubscribeURL");
      // the log line concatenates the URL before url.parse rejects a non-string
      var logged :- ToText(lib.numberText, subscribeUrl);
      if !subscribeUrl.Str? then Err(UrlNotString)
      else
        // `https.request` throws on a URL of another protocol before sending
        var protocol := lib.urlParse(subscribeUrl.s).protocol;
        if !ClientAccepts("https:", protocol) then Err(UnsupportedProtocol(protocol.value))
        else Ok(Converted(Some(subscribeUrl.s), Some(SlackMessage(url, Str("Subscribed to Amazon SNS topic \"" + topic + "\".")))))
    else if snsType == Some("Notification") then
      var subject :- Get(body, "Subject");
      // the body is neither null nor undefined once `Subject` was read
      var message := Get(body, "Message").value;
      var text :- NotificationText(lib, body, subject, message);
      Ok(Converted(None, Some(SlackMessage(url, text))))
    else Ok(Converted(None, None))
  }

  /** Calling the converter found in the table. `test` always returns a
      descriptor and never fails or confirms; only `sns2slack` can confirm,
      decline or fail. */
  function Convert(lib: Lib, c: Converter, headers: map<string, string>, segments: seq<string>, data: Value): (r: Result<Converted>)
    ensures c == Test ==> r.Ok? && r.value.confirm.None? && r.value.upstream.Some?
    ensures c == Test ==> r.value.upstream.value.data == data
    ensures (r.Err? || r.value.confirm.Some? || r.value.upstream.None?) ==> c == SnsToSlack
  {
    match c
    case Test => Ok(Converted(None, Some(TestConversion(headers, segments, data))))
    case SnsToSlack => SnsConversion(lib, headers, segments, data)
  }

  /** The `test` converter always forwards: as JSON, the decoded body
      unchanged, to the `x-target-url` header when that is non-empty and
      otherwise to the request bin followed by the path suffix. It never
      confirms anything. */
  lemma TestForwardsBody(lib: Lib, headers: map<string, string>, segments: seq<string>, data: Value)
    ensures var r := Convert(lib, Test, headers, segments, data);
      && r.Ok? && r.value.confirm.None? && r.value.upstream.Some?
      && r.value.upstream.value.data == data
      && r.value.upstream.value.format == Some("json")
      && r.value.upstream.value.httpMethod.None? && r.value.upstream.value.headers.None?
      && r.value.upstream.value.invalid.None?
      && ("x-target-url" in headers && headers["x-target-url"] != "" ==>
            r.value.upstream.value.url == headers["x-target-url"])
      && (("x-target-url" !in headers || headers["x-target-url"] == "") ==>
            r.value.upstream.value.url == RequestBinBase + Suffix(segments))
  {
  }

  /** Every descriptor `sns2slack` returns posts JSON `{text: ...}` to the
      Slack webhook named by the path suffix, with no method, headers or
      `invalid` of its own. */
  lemma SnsTargetsSlack(lib: Lib, headers: map<string, string>, segments: seq<string>, data: Value)
    requires SnsConversion(lib, headers, segments, data).Ok?
    requires SnsConversion(lib, headers, segments, data).value.upstream.Some?
    ensures var u := SnsConversion(lib, headers, segments, data).value.upstream.value;
      && u.url == SlackBase + Suffix(segments)
      && u.format == Some("json")
      && u.httpMethod.None? && u.headers.None? && u.invalid.None?
      && u.data.Obj? && u.data.props.Keys == {"text"}
  {
    var body := Reparse(lib, data).value;
    var snsType := Header(headers, "x-amz-sns-message-type");
    if snsType == Some("Notification") {
      var text := NotificationText(lib, body, Get(body, "Subject").value, Get(body, "Message").value);
      assert SnsConversion(lib, headers, segments, data).value.upstream.value ==
        SlackMessage(SlackBase + Suffix(segments), text.value);
    }
  }

  /** A confirmation GET is issued only for a SubscriptionConfirmation. For
      one whose body parses and carries a string `SubscribeURL` that the
      https client accepts, exactly one GET goes to that URL and the
      converter announces the subscription to the topic named in the header.
      The GET's outcome is not an input of the converter, so it cannot change
      the descriptor. A `SubscribeURL` of another protocol, `http:` among
      them, makes `https.request` throw: nothing is sent and the process
      ends. */
  lemma SnsSubscription(lib: Lib, headers: map<string, string>, segments: seq<string>, data: Value)
    ensures var r := SnsConversion(lib, headers, segments, data);
      r.Ok? && r.value.confirm.Some? ==>
        Header(headers, "x-amz-sns-message-type") == Some("SubscriptionConfirmation")
    ensures var r := SnsConversion(lib, headers, segments, data);
      forall body, subscribeUrl ::
        Header(headers, "x-amz-sns-message-type") == Some("SubscriptionConfirmation") &&
        Reparse(lib, data) == Ok(body) && Get(body, "SubscribeURL") == Ok(Str(subscribeUrl)) &&
        ClientAccepts("https:", lib.urlParse(subscribeUrl).protocol) ==>
          r == Ok(Converted(Some(subscribeUrl), Some(SlackMessage(SlackBase + Suffix(segments),
            Str("Subscribed to Amazon SNS topic \"" + HeaderText(Header(headers, "x-amz-sns-topic-arn")) + "\".")))))
    ensures var r := SnsConversion(lib, headers, segments, data);
      forall body, subscribeUrl, protocol ::
        Header(headers, "x-amz-sns-message-type") == Some("SubscriptionConfirmation") &&
        Reparse(lib, data) == Ok(body) && Get(body, "SubscribeURL") == Ok(Str(subscribeUrl)) &&
        lib.urlParse(subscribeUrl).protocol == Some(protocol) && protocol != "https:" ==>
          r == Err(UnsupportedProtocol(protocol))
  {
  }

  /** An UnsubscribeConfirmation whose body parses is announced without any
      confirmation call and without reading the body. */
  lemma SnsUnsubscription(lib: Lib, headers: map<string, string>, segments: seq<string>, data: Value)
    requires Header(headers, "x-amz-sns-message-type") == Some("UnsubscribeConfirmation")
    requires Reparse(lib, data).Ok?
    ensures SnsConversion(lib, headers, segments, data) ==
      Ok(Converted(None, Some(SlackMessage(SlackBase + Suffix(segments),
        Str("Unsubscribed from Amazon SNS topic \"" + HeaderText(Header(headers, "x-amz-sns-topic-arn")) + "\".")))))
  {
  }

  /** A Notification is never answered with null: whenever the converter
      returns, it returns a descriptor whose text is truthy, for any body,
      an array or a number as much as an object. It fails only when the body
      is not JSON, is null or undefined, or holds a subject and message that
      cannot be converted to strings. */
  lemma SnsNotificationForwarded(lib: Lib, headers: map<string, string>, segments: seq<string>, data: Value)
    requires Header(headers, "x-amz-sns-message-type") == Some("Notification")
    ensures var r := SnsConversion(lib, headers, segments, data);
      r.Ok? ==>
        && r.value.confirm.None? && r.value.upstream.Some?
        && r.value.upstream.value.data.Obj? && "text" in r.value.upstream.value.data.props
        && Truthy(r.value.upstream.value.data.props["text"])
    ensures var r := SnsConversion(lib, headers, segments, data);
      r.Err? ==> r.fault == JsonSyntax || r.fault == NullishProperty("Subject") || r.fault == NoPrimitive
    ensures var r := SnsConversion(lib, headers, segments, data);
      r.Err? && r.fault == NullishProperty("Subject") ==>
        Reparse(lib, data).Ok? && (Reparse(lib, data).value.Null? || Reparse(lib, data).value.Undefined?)
  {
  }

  /** The example of a notification with subject "S" and message "M": the
      Slack text is exactly "S\n\nM". */
  lemma SnsSubjectAndMessage(lib: Lib, headers: map<string, string>, segments: seq<string>, data: Value)
    requires Header(headers, "x-amz-sns-message-type") == Some("Notification")
    requires Reparse(lib, data) == Ok(Obj(map["Subject" := Str("S"), "Message" := Str("M")]))
    ensures SnsConversion(lib, headers, segments, data) ==
      Ok(Converted(None, Some(SlackMessage(SlackBase + Suffix(segments), Str("S\n\nM")))))
  {
    assert "S" + "\n\n" + "M" == "S\n\nM";
  }

  /** A number as the subject is converted by the runtime's number
      formatting: subject 5 and message "M" give the text "5\n\nM" when
      the runtime writes 5 as "5". */
  lemma SnsNumericSubject(lib: Lib, headers: map<string, string>, segments: seq<string>, data: Value)
    requires Header(headers, "x-amz-sns-message-type") == Some("Notification")
    requires Reparse(lib, data) == Ok(Obj(map["Subject" := Num(5.0), "Message" := Str("M")]))
    ensures SnsConversion(lib, headers, segments, data) ==
      Ok(Converted(None, Some(SlackMessage(SlackBase + Suffix(segments), Str(lib.numberText(5.0) + "\n\nM")))))
  {
    var body := Obj(map["Subject" := Num(5.0), "Message" := Str("M")]);
    assert Get(body, "Subject") == Ok(Num(5.0)) && Get(body, "Message") == Ok(Str("M"));
    assert lib.numberText(5.0) + "\n\n" + "M" == lib.numberText(5.0) + "\n\nM";
  }

  /** Any other message type, or none, yields null: nothing is confirmed and
      nothing is forwarded. Only a body that fails to parse as JSON can make
      it fail. */
  lemma SnsIgnoresOtherTypes(lib: Lib, headers: map<string, string>, segments: seq<string>, data: Value)
    requires Header(headers, "x-amz-sns-message-type") !in
      {Some("Notification"), Some("SubscriptionConfirmation"), Some("UnsubscribeConfirmation")}
    ensures SnsConversion(lib, headers, segments, data) ==
      if Reparse(lib, data).Ok? then Ok(Converted(None, None)) else Err(JsonSyntax)
  {
  }
}
