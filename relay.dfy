/** The request handlers: method dispatch, the health-check route, and the
    webhook relay that decodes, converts, encodes, forwards and proxies. */
module Relay {
  import opened Js
  import opened Foreign
  import opened Codecs
  import opened Paths
  import opened Converters

  const MainHtml := "Gotcha!"
  const ContentTypeHeader := "Content-Type"
  const ContentLengthHeader := "Content-Length"

  /** An inbound request with its body already gathered from the stream. */
  datatype Request = Request(httpMethod: string, url: string, headers: map<string, string>, body: string)

  /** What the caller receives. `contentType` is None when the handler sets
      no Content-Type header. */
  datatype Response = Response(status: nat, contentType: Option<string>, body: string)

  /** How the forwarded call ends: the upstream's status, Content-Type and
      whole body, or an `error` event with its message. */
  datatype UpstreamOutcome =
    | Replied(status: nat, contentType: Option<string>, body: string)
    | Failed(message: string)

  /** The request handed to `http.request` or `https.request`. */
  datatype Outbound = Outbound(
    url: string,
    secure: bool,
    httpMethod: string,
    headers: map<string, HeaderValue>,
    body: string)

  /** A response sent, or an uncaught exception that ends the process. */
  datatype Reply = Sent(response: Response) | Crashed(fault: Fault)

  /** Everything one inbound request causes, in order: the SNS confirmation
      GET, the forwarded request, and the reply. */
  datatype Exchange = Exchange(confirm: Option<string>, outbound: Option<Outbound>, reply: Reply)

  /** `handleQueryRequest`: the greeting for `/`, 404 with an empty body for
      any other path, and no Content-Type either way. */
  function HandleQueryRequest(lib: Lib, req: Request): (r: Response)
    ensures r.contentType.None?
    ensures r.status == 200 <==> lib.urlParse(req.url).pathname == Some("/")
    ensures r.status == 200 ==> r.body == MainHtml
    ensures r.status != 200 ==> r.status == 404 && r.body == ""
  {
    if lib.urlParse(req.url).pathname == Some("/") then Response(200, None, MainHtml)
    else Response(404, None, "")
  }

  /** `upstream.method || 'POST'`: never empty, the converter's method when
      it gives a non-empty one, POST otherwise. */
  function MethodOf(u: Upstream): (m: string)
    ensures m != ""
    ensures u.httpMethod.Some? && u.httpMethod.value != "" ==> m == u.httpMethod.value
    ensures (u.httpMethod.None? || u.httpMethod.value == "") ==> m == "POST"
  {
    if u.httpMethod.Some? && u.httpMethod.value != "" then u.httpMethod.value else "POST"
  }

  /** `upstream.headers || {}`: the converter's headers, or none. */
  function BaseHeaders(u: Upstream): (h: map<string, HeaderValue>)
    ensures u.headers.None? ==> h == map[]
    ensures u.headers.Some? ==> h == u.headers.value
  {
    if u.headers.Some? then u.headers.value else map[]
  }

  /** The protocol the client `handleWebhookRequest` picks expects: https
      for an `https:` URL, http for any other. */
  function ClientProtocol(protocol: Option<string>): (p: string)
    ensures p == "https:" <==> protocol == Some("https:")
    ensures p != "https:" ==> p == "http:"
  {
    if protocol == Some("https:") then "https:" else "http:"
  }

  /** The request `handleWebhookRequest` sends for a descriptor: the method
      defaults to POST; the converter's headers are kept, with Content-Type
      set to the type of the formatter the format names (text/plain for an
      unknown or absent one) and Content-Length to the body's length, which
      is 0 exactly for an empty body; https is used exactly when the URL's
      protocol is `https:`. It throws, in this order, on a format inherited
      from Object.prototype, on a URL whose protocol is neither `http:` nor
      `https:` (nor absent), and on a body that is not a string. */
  function OutboundFor(lib: Lib, u: Upstream): (r: Result<Outbound>)
    ensures var p := lib.urlParse(u.url).protocol;
      r.Ok? <==>
        && Named(u.format).Ok?
        && (p.None? || p == Some("http:") || p == Some("https:"))
        && Encode(lib, Named(u.format).value, u.data).Ok?
    ensures var p := lib.urlParse(u.url).protocol;
      r.Err? ==>
        r.fault == (if Named(u.format).Err? then Named(u.format).fault
                    else if p.Some? && p.value != "http:" && p.value != "https:" then UnsupportedProtocol(p.value)
                    else BodyNotString)
    ensures r.Ok? ==>
      var o, f := r.value, Named(u.format).value;
      && o.url == u.url
      && o.httpMethod == (if u.httpMethod.Some? && u.httpMethod.value != "" then u.httpMethod.value else "POST")
      && o.body == Encode(lib, f, u.data).value
      && o.headers.Keys == BaseHeaders(u).Keys + {ContentTypeHeader, ContentLengthHeader}
      && o.headers[ContentTypeHeader] == Text(ContentType(f))
      && (o.headers[ContentTypeHeader] == Text("text/plain") <==> f == Plain)
      && o.headers[ContentLengthHeader] == Length(Utf16Length(o.body))
      && (o.headers[ContentLengthHeader] == Length(0) <==> o.body == "")
      && (forall k :: k in BaseHeaders(u) && k != ContentTypeHeader && k != ContentLengthHeader ==>
            o.headers[k] == BaseHeaders(u)[k])
      && (o.secure <==> lib.urlParse(u.url).protocol == Some("https:"))
  {
    var f :- Named(u.format);
    var protocol := lib.urlParse(u.url).protocol;
    if !ClientAccepts(ClientProtocol(protocol), protocol) then Err(UnsupportedProtocol(protocol.value))
    else
      var body :- Encode(lib, f, u.data);
      var headers := BaseHeaders(u)[ContentTypeHeader := Text(ContentType(f))][ContentLengthHeader := Length(Utf16Length(body))];
      Ok(Outbound(u.url, protocol == Some("https:"), MethodOf(u), headers, body))
  }

  /** The caller's response once the forwarded request ends: the upstream's
      status, Content-Type and body as they came, or 500 with the error's
      message. */
  function Proxied(up: UpstreamOutcome): (r: Response)
    ensures up.Replied? ==> r == Response(up.status, up.contentType, up.body)
    ensures up.Failed? ==> r == Response(500, None, up.message)
  {
    match up
    case Replied(status, contentType, body) => Response(status, contentType, body)
    case Failed(message) => Response(500, None, message)
  }

  /** What happens after the converter returns: the confirmation it issued
      stays issued; a request goes upstream exactly when the converter
      described one without `invalid` and it can be built, and then the
      caller gets the proxied reply; a crash comes only from building it. */
  function Forward(lib: Lib, conv: Converted, up: UpstreamOutcome): (ex: Exchange)
    ensures ex.confirm == conv.confirm
    ensures ex.outbound.Some? <==>
      && conv.upstream.Some?
      && !(conv.upstream.value.invalid.Some? && conv.upstream.value.invalid.value != "")
      && OutboundFor(lib, conv.upstream.value).Ok?
    ensures ex.outbound.Some? ==>
      && conv.upstream.Some?
      && ex.outbound == Some(OutboundFor(lib, conv.upstream.value).value)
      && ex.reply == Sent(Proxied(up))
    ensures ex.reply.Crashed? ==>
      && conv.upstream.Some?
      && OutboundFor(lib, conv.upstream.value) == Err(ex.reply.fault)
  {
    match conv.upstream
    case None => Exchange(conv.confirm, None, Sent(Response(200, None, "")))
    case Some(u) =>
      if u.invalid.Some? && u.invalid.value != "" then
        Exchange(conv.confirm, None, Sent(Response(400, None, u.invalid.value)))
      else
        match OutboundFor(lib, u)
        case Err(f) => Exchange(conv.confirm, None, Crashed(f))
        case Ok(o) => Exchange(conv.confirm, Some(o), Sent(Proxied(up)))
  }

  /** What `handleWebhookRequest` does with a request. A forwarded request
      is always answered by proxying; a request answered without forwarding
      gets 200, 400 or 404; and only an SNS subscription confirmation issues
      a confirmation GET. */
  function Webhook(lib: Lib, req: Request, up: UpstreamOutcome): (ex: Exchange)
    ensures ex.outbound.Some? ==> ex.reply == Sent(Proxied(up))
    ensures ex.outbound.None? && ex.reply.Sent? ==> ex.reply.response.status in {200, 400, 404}
    ensures ex.confirm.Some? ==> Header(req.headers, "x-amz-sns-message-type") == Some("SubscriptionConfirmation")
  {
    match lib.urlParse(req.url).pathname
    case None => Exchange(None, None, Crashed(MissingPathname))
    case Some(pathname) =>
      match Segments(pathname)
      case Err(f) => Exchange(None, None, Crashed(f))
      case Ok(segments) =>
        match Lookup(segments[0])
        case Absent => Exchange(None, None, Sent(Response(404, None, "")))
        case Inherited(name) =>
          (match Parse(lib, req.body, Header(req.headers, "content-type"))
           case Err(f) => Exchange(None, None, Crashed(f))
           case Ok(_) => Exchange(None, None, Crashed(InheritedMember(name))))
        case Own(c) =>
          match Parse(lib, req.body, Header(req.headers, "content-type"))
          case Err(f) => Exchange(None, None, Crashed(f))
          case Ok(data) =>
            match Convert(lib, c, req.headers, segments, data)
            case Err(f) => Exchange(None, None, Crashed(f))
            case Ok(conv) => Forward(lib, conv, up)
  }

  /** `handleRequest`: only a POST can confirm, forward or crash; every other
      method is answered at once. */
  function HandleRequest(lib: Lib, req: Request, up: UpstreamOutcome): (ex: Exchange)
    ensures req.httpMethod != "POST" ==> ex.confirm.None? && ex.outbound.None? && ex.reply.Sent?
    ensures ex.outbound.Some? ==> ex.reply == Sent(Proxied(up))
  {
    if req.httpMethod == "GET" then Exchange(None, None, Sent(HandleQueryRequest(lib, req)))
    else if req.httpMethod == "POST" then Webhook(lib, req, up)
    else Exchange(None, None, Sent(Response(405, None, "")))
  }

  /** `handleWebhookRequest`, statement by statement: it computes the path
      segments, looks up the converter, parses the body, calls the
      converter, and then builds the request options from `url.parse`, the
      method, and the converter's headers with Content-Type and
      Content-Length written in. The options and headers are local values
      reassigned one field at a time; the objects index.js updates in place
      are not shared with anything read later. */
  method HandleWebhookRequest(lib: Lib, req: Request, up: UpstreamOutcome) returns (ex: Exchange)
    ensures ex == Webhook(lib, req, up)
  {
    var location := lib.urlParse(req.url);
    if location.pathname.None? {
      return Exchange(None, None, Crashed(MissingPathname));
    }
    var matched := Segments(location.pathname.value);
    if matched.Err? {
      return Exchange(None, None, Crashed(matched.fault));
    }
    var locationSegments := matched.value;
    var convert := Lookup(locationSegments[0]);
    if convert.Absent? {
      return Exchange(None, None, Sent(Response(404, None, "")));
    }
    var requestData := ParseData(lib, req.body, Header(req.headers, "content-type"));
    if requestData.Err? {
      return Exchange(None, None, Crashed(requestData.fault));
    }
    if convert.Inherited? {
      return Exchange(None, None, Crashed(InheritedMember(convert.name)));
    }
    var converted := Convert(lib, convert.converter, req.headers, locationSegments, requestData.value);
    if converted.Err? {
      return Exchange(None, None, Crashed(converted.fault));
    }
    var confirm := converted.value.confirm;
    if converted.value.upstream.None? {
      return Exchange(confirm, None, Sent(Response(200, None, "")));
    }
    var upstream := converted.value.upstream.value;
    if upstream.invalid.Some? && upstream.invalid.value != "" {
      return Exchange(confirm, None, Sent(Response(400, None, upstream.invalid.value)));
    }
    var options := lib.urlParse(upstream.url);
    var httpMethod := if upstream.httpMethod.Some? && upstream.httpMethod.value != "" then upstream.httpMethod.value else "POST";
    var headers := if upstream.headers.Some? then upstream.headers.value else map[];
    var formatter := Named(upstream.format);
    if formatter.Err? {
      return Exchange(confirm, None, Crashed(formatter.fault));
    }
    var body := Encode(lib, formatter.value, upstream.data);
    headers := headers[ContentTypeHeader := Text(ContentType(formatter.value))];
    if body.Ok? {
      headers := headers[ContentLengthHeader := Length(Utf16Length(body.value))];
    }
    var secure := options.protocol == Some("https:");
    var client := if secure then "https:" else "http:";
    if !ClientAccepts(client, options.protocol) {
      return Exchange(confirm, None, Crashed(UnsupportedProtocol(options.protocol.value)));
    }
    if body.Err? {
      return Exchange(confirm, None, Crashed(body.fault));
    }
    ex := Exchange(confirm, Some(Outbound(upstream.url, secure, httpMethod, headers, body.value)), Sent(Proxied(up)));
  }

  /** GET / answers 200 with the greeting and any other GET 404 with an empty
      body; a method other than GET and POST answers 405. None of them sends
      anything upstream or reads the body. */
  lemma MethodDispatch(lib: Lib, req: Request, up: UpstreamOutcome)
    ensures req.httpMethod == "GET" && lib.urlParse(req.url).pathname == Some("/") ==>
      HandleRequest(lib, req, up) == Exchange(None, None, Sent(Response(200, None, "Gotcha!")))
    ensures req.httpMethod == "GET" && lib.urlParse(req.url).pathname != Some("/") ==>
      HandleRequest(lib, req, up) == Exchange(None, None, Sent(Response(404, None, "")))
    ensures req.httpMethod != "GET" && req.httpMethod != "POST" ==>
      HandleRequest(lib, req, up) == Exchange(None, None, Sent(Response(405, None, "")))
  {
  }

  /** A POST to a name that is not in the converter table answers 404 with an
      empty body before the body is parsed: nothing is confirmed or forwarded,
      whatever the body and headers are. */
  lemma UnknownConverterNotFound(lib: Lib, req: Request, up: UpstreamOutcome, pathname: string)
    requires req.httpMethod == "POST" && lib.urlParse(req.url).pathname == Some(pathname)
    requires Segments(pathname).Ok?
    requires var name := Segments(pathname).value[0];
      name != "test" && name != "sns2slack" && name !in ObjectPrototypeNames
    ensures HandleRequest(lib, req, up) == Exchange(None, None, Sent(Response(404, None, "")))
  {
  }

  /** A converter that returns null gets 200 with an empty body, one that
      returns `invalid` gets 400 with that text; neither forwards anything,
      so the upstream outcome plays no part. */
  lemma DeclinedOrInvalid(lib: Lib, conv: Converted, up: UpstreamOutcome)
    ensures conv.upstream.None? ==>
      Forward(lib, conv, up) == Exchange(conv.confirm, None, Sent(Response(200, None, "")))
    ensures conv.upstream.Some? && conv.upstream.value.invalid.Some? && conv.upstream.value.invalid.value != "" ==>
      Forward(lib, conv, up) == Exchange(conv.confirm, None, Sent(Response(400, None, conv.upstream.value.invalid.value)))
  {
  }

  /** When a request is forwarded, the caller gets the upstream's status,
      Content-Type and body unchanged, or 500 with the error message. When
      nothing is forwarded, the upstream outcome cannot change anything. */
  lemma ReplyFollowsUpstream(lib: Lib, req: Request, up: UpstreamOutcome, other: UpstreamOutcome)
    ensures var ex := HandleRequest(lib, req, up);
      ex.outbound.Some? ==>
        ex.reply == Sent(match up
          case Replied(status, contentType, body) => Response(status, contentType, body)
          case Failed(message) => Response(500, None, message))
    ensures HandleRequest(lib, req, up).outbound.None? ==> HandleRequest(lib, req, other) == HandleRequest(lib, req, up)
  {
  }

  /** What is forwarded is what the converter described: the outbound
      request is the encoding of some descriptor the converter returned. */
  lemma ForwardedComesFromConverter(lib: Lib, conv: Converted, up: UpstreamOutcome)
    requires Forward(lib, conv, up).outbound.Some?
    ensures conv.upstream.Some?
    ensures OutboundFor(lib, conv.upstream.value) == Ok(Forward(lib, conv, up).outbound.value)
    ensures Forward(lib, conv, up).confirm == conv.confirm
  {
  }

  /** A POST without a Content-Type header to a known converter throws in
      `parseData`: the process ends and nothing is confirmed or forwarded. */
  lemma MissingContentTypeCrashes(lib: Lib, req: Request, up: UpstreamOutcome, pathname: string)
    requires req.httpMethod == "POST" && lib.urlParse(req.url).pathname == Some(pathname)
    requires Segments(pathname).Ok? && Lookup(Segments(pathname).value[0]).Own?
    requires "content-type" !in req.headers
    ensures HandleRequest(lib, req, up) == Exchange(None, None, Crashed(MissingContentType))
  {
  }

  /** Once a known converter has returned, the webhook's outcome is what
      `Forward` makes of the converter's result. */
  lemma ConvertedRequest(lib: Lib, req: Request, up: UpstreamOutcome, pathname: string,
                         segments: seq<string>, c: Converter, data: Value, conv: Converted)
    requires req.httpMethod == "POST" && lib.urlParse(req.url).pathname == Some(pathname)
    requires Segments(pathname) == Ok(segments) && Lookup(segments[0]) == Own(c)
    requires Parse(lib, req.body, Header(req.headers, "content-type")) == Ok(data)
    requires Convert(lib, c, req.headers, segments, data) == Ok(conv)
    ensures HandleRequest(lib, req, up) == Forward(lib, conv, up)
  {
  }

  /** POST /test with a JSON body and a non-empty `x-target-url` header is
      forwarded as a POST, to that URL, of the parsed body re-encoded as JSON,
      labelled application/json; the target's reply reaches the caller
      unchanged. (With `x-target-url: http://sink.example/abc` and the body
      `{"a":1}`, the post of `{"a":1}` goes to the sink.) */
  lemma TestRelaysJson(lib: Lib, req: Request, up: UpstreamOutcome, target: string, v: Value)
    requires req.httpMethod == "POST" && lib.urlParse(req.url).pathname == Some("/test")
    requires "content-type" in req.headers && Negotiate(req.headers["content-type"]) == Json
    requires "x-target-url" in req.headers && req.headers["x-target-url"] == target && target != ""
    requires lib.jsonParse(req.body) == Some(v) && !v.Undefined?
    requires var p := lib.urlParse(target).protocol; p.None? || p == Some("http:") || p == Some("https:")
    ensures var ex := HandleRequest(lib, req, up);
      && ex.confirm.None?
      && ex.outbound == Some(Outbound(target, lib.urlParse(target).protocol == Some("https:"), "POST",
           map[ContentTypeHeader := Text("application/json"),
               ContentLengthHeader := Length(Utf16Length(lib.jsonStringify(v)))],
           lib.jsonStringify(v)))
      && ex.reply == Sent(Proxied(up))
  {
    TestConverts(lib, req, up, v);
    var u := Upstream(target, None, None, Some("json"), v, None);
    assert Named(Some("json")) == Ok(Json);
    var o := OutboundFor(lib, u);
    assert o.Ok? && o.value.body == lib.jsonStringify(v);
  }

  /** Such a request reaches the `test` converter, which describes a JSON
      post of the parsed body to the target. */
  lemma TestConverts(lib: Lib, req: Request, up: UpstreamOutcome, v: Value)
    requires req.httpMethod == "POST" && lib.urlParse(req.url).pathname == Some("/test")
    requires "content-type" in req.headers && Negotiate(req.headers["content-type"]) == Json
    requires "x-target-url" in req.headers && req.headers["x-target-url"] != ""
    requires lib.jsonParse(req.body) == Some(v)
    ensures HandleRequest(lib, req, up) ==
      Forward(lib, Converted(None, Some(Upstream(req.headers["x-target-url"], None, None, Some("json"), v, None))), up)
  {
    NameAndSuffix("/test", "test");
    var segments := Segments("/test").value;
    assert segments == ["test"];
    var conv := Converted(None, Some(Upstream(req.headers["x-target-url"], None, None, Some("json"), v, None)));
    assert Convert(lib, Test, req.headers, segments, v) == Ok(conv);
    ConvertedRequest(lib, req, up, "/test", segments, Test, v, conv);
  }

  /** The path /sns2slack/<suffix> selects `sns2slack` with that suffix. */
  lemma SlackPath(suffix: string)
    requires forall i :: 0 <= i < |suffix| ==> !IsLineTerminator(suffix[i])
    ensures Segments("/sns2slack/" + suffix).Ok?
    ensures Segments("/sns2slack/" + suffix).value[0] == "sns2slack"
    ensures Suffix(Segments("/sns2slack/" + suffix).value) == suffix
  {
    var pathname := "/sns2slack/" + suffix;
    forall i | 0 <= i < |pathname| ensures !IsLineTerminator(pathname[i]) {
      if i >= 11 { assert pathname[i] == suffix[i - 11]; }
    }
    ConverterPath(pathname, "sns2slack", suffix);
  }

  /** A POST to /sns2slack/<suffix> can only ever be forwarded to the Slack
      webhook https://hooks.slack.com/services/<suffix>, over https when the
      URL parser reads that URL's protocol as `https:`. */
  lemma SlackTargetFromPath(lib: Lib, req: Request, up: UpstreamOutcome, suffix: string)
    requires req.httpMethod == "POST"
    requires lib.urlParse(req.url).pathname == Some("/sns2slack/" + suffix)
    requires forall i :: 0 <= i < |suffix| ==> !IsLineTerminator(suffix[i])
    ensures var o := HandleRequest(lib, req, up).outbound;
      o.Some? ==>
        && o.value.url == SlackBase + suffix
        && (o.value.secure <==> lib.urlParse(SlackBase + suffix).protocol == Some("https:"))
  {
    if HandleRequest(lib, req, up).outbound.Some? {
      var pathname := "/sns2slack/" + suffix;
      SlackPath(suffix);
      var segments := Segments(pathname).value;
      assert Lookup(segments[0]) == Own(SnsToSlack);
      var parsed := Parse(lib, req.body, Header(req.headers, "content-type"));
      var ex := HandleRequest(lib, req, up);
      assert ex == Webhook(lib, req, up);
      assert parsed.Ok?;
      var converted := Convert(lib, SnsToSlack, req.headers, segments, parsed.value);
      assert converted.Ok?;
      ConvertedRequest(lib, req, up, pathname, segments, SnsToSlack, parsed.value, converted.value);
      ForwardedComesFromConverter(lib, converted.value, up);
      SnsTargetsSlack(lib, req.headers, segments, parsed.value);
    }
  }
}
