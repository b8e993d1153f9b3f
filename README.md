# webknot relay handler, modelled in Dafny

webknot is a small Node.js webhook relay (`index.js`). A POST to
`/<converter>/<suffix>` is decoded by its Content-Type. It is then handed to a
named converter, which turns it into a descriptor of an outbound request or
into nothing. The descriptor is encoded by its format and sent upstream, and
the upstream's reply is proxied back to the caller. Two converters exist:

- `test` forwards the body as JSON to a request bin or to the `x-target-url` header.
- `sns2slack` turns Amazon SNS messages into Slack webhook posts. For a
  SubscriptionConfirmation it also issues its own GET to the `SubscribeURL`.

`GET /` answers `Gotcha!`.

The model has six modules:

- `Js`: the runtime behaviour the handler relies on. This covers dynamically
  typed values, truthiness, what `+` does to a value, the `startsWith`
  prefix test, `split`/`join` on `/`, and string `length` in UTF-16 code units.
- `Foreign`: `JSON.parse`/`stringify`, `querystring.parse`/`stringify`,
  `url.parse` and number formatting. These are a record of arbitrary total
  functions passed to every operation that needs them, so each property holds
  whatever those libraries do.
- `Codecs`: the `formatters` table, the default formatter and `parseData`.
  `ParseData` is the `for…in` search loop, proved equal to `Parse`/`Negotiate`.
- `Paths`: the regex `^\/?(.*)\/?$` and the split into `locationSegments`.
- `Converters`: `converters.test`, `converters.sns2slack` and the converter lookup.
- `Relay`: `handleRequest`, `handleQueryRequest` and `handleWebhookRequest`.
  `HandleWebhookRequest` is the step-by-step method that fills in the
  outbound request options. It is proved equal to the function `Webhook`, which
  `HandleRequest` uses.

One inbound request yields an `Exchange` value with three parts:

- the SNS confirmation GET, if one was issued;
- the outbound request, if one was made;
- the reply.

The reply is either a response or `Crashed(fault)`. A crash stands for an
exception that nothing in `index.js` catches, which ends the Node process. The
outcome of the outbound request (`Replied` or `Failed`) is an input. Only the
reply depends on it.

Behaviour of index.js worth knowing, all of it stated in the model:

- The SNS message type and topic come from the `x-amz-sns-message-type` and
  `x-amz-sns-topic-arn` headers. The body supplies only `SubscribeURL`,
  `Subject` and `Message`. An absent topic header is written as `undefined`.
- The response to the caller is decided by the handler alone: a converter
  result cannot set its status or body beyond `invalid`.
- A body that is not valid JSON, when JSON is expected, is not a client error.
  `JSON.parse` throws and the process ends (`Crashed(JsonSyntax)`). A request
  without a Content-Type header to a known converter also crashes
  (`Crashed(MissingContentType)`).
- An unknown converter name answers 404, except for names an object inherits
  from `Object.prototype` (`constructor`, `toString`, `__proto__`, …).
  `converters[name]` finds a built-in there, and the request ends in an
  uncaught TypeError (`Crashed(InheritedMember(name))`). The same holds for
  such a name given as a format.
- `Content-Length` is the body's `length`, which counts UTF-16 code units,
  not the bytes that are sent. The model states it as the code computes it.
- A subscription confirmation is sent with `https.request`, which throws on
  a `SubscribeURL` of any other protocol. An `http://` SubscribeURL
  therefore ends the process before anything is confirmed or posted to
  Slack (`Crashed(UnsupportedProtocol("http:"))`). In the same way a
  descriptor URL whose protocol is neither `http:` nor `https:` crashes
  the forwarding step.

## Model

| member | source | states |
|---|---|---|
| `Js.Truthy` | index.js:88 | A value is truthy exactly when it is not undefined, null, false, 0 or the empty string. |
| `Js.Get` | index.js:86-87 | `v[key]` throws exactly on null and undefined; an object's own property is returned, and anything else reads `undefined`. |
| `Js.StartsWith` | index.js:10-14 | The polyfill's slice comparison holds exactly when the argument is a prefix of the string. |
| `Js.ToText` | index.js:93 | String conversion by `+` fails exactly on a trap (an object with an own `toString`, or an array holding one at any depth), with a TypeError; a string converts to itself. |
| `Js.JoinElements` | index.js:93 | Joining array elements from an index on fails exactly when one of those elements is a trap; a last element that is a string is written as itself. |
| `Js.Utf16Length` | index.js:191 | The `length` used as Content-Length lies between the number of characters and twice it, and is 0 exactly for the empty string. |
| `Js.Split` | index.js:153 | `split('/')` yields at least one piece, no piece contains `/`, and a string without `/` gives just itself. |
| `Js.JoinSplit` | index.js:153 | Joining the pieces of a split with the separator gives back the string. |
| `Js.SplitAtFirst` | index.js:153 | The first piece of a split ends at the first separator, and the rest is the split of what follows it. |
| `Js.SplitJoin` | index.js:153 | Splitting the join of separator-free pieces gives back those pieces. |
| `Js.Join` | index.js:26 | `join('/')` starts with the first piece, puts the separator right after it when more follow, and adds no separator to a single piece. |
| `Codecs.Decode` | index.js:113-130 | Only the JSON formatter's parse can fail, exactly on text the JSON parser rejects, and otherwise gives the parsed value; the form formatter gives the querystring parse; the default formatter keeps the text unchanged. |
| `Codecs.Encode` | index.js:189-191 | JSON gives `JSON.stringify` of any defined value, form gives `querystring.stringify`, the default formatter sends a string as it is. A body that cannot be written (JSON of `undefined`, or a non-string under the default formatter) fails, and nothing else does. |
| `Codecs.Parse` | index.js:132-139 | An absent Content-Type, and only that, throws before parsing; any other failure is a JSON syntax error under the JSON formatter; a form type goes to the querystring parser. |
| `Codecs.FirstMatch` | index.js:133-136 | The index found is the first table entry whose content type prefixes the header, or the table's end when none does. |
| `Codecs.Negotiate` | index.js:113-139 | form is chosen exactly when its type prefixes the header; json exactly when form's does not and json's does; the default exactly when neither does. |
| `Codecs.ParseData` | index.js:132-139 | The loop returns the parse of the first matching formatter in table order, the text unchanged when none matches, and fails on an absent header. |
| `Codecs.UnmatchedIsText` | index.js:138 | With no matching formatter, the decoded body is the inbound text itself. |
| `Codecs.JsonWithCharset` | index.js:134 | `application/json; charset=utf-8` selects the JSON formatter. |
| `Codecs.LabelSelectsFormatter` | index.js:113-130 | The content type each formatter writes selects that same formatter when parsed again. |
| `Codecs.RoundTrip` | index.js:113-130 | Decoding a formatter's own encoding gives the value back, given that the library's parse inverts its stringify; unconditionally for the default formatter. |
| `Codecs.IndexOfName` | index.js:188 | The formatter lookup finds the entry whose key equals the name, and only that one. |
| `Codecs.Named` | index.js:188 | `form` and `json` select their formatters; an absent or other name selects the text/plain default; only names inherited from Object.prototype fail. |
| `Paths.PathGroup` | index.js:153 | The regex matches exactly when the path has no line terminator; its group is the path with at most one leading `/` removed, and a trailing `/` is kept. |
| `Paths.Segments` | index.js:153 | The segments are never empty, contain no `/`, and joined by `/` give the path without its optional leading `/`; a failed match is a crash. |
| `Paths.Suffix` | index.js:40 | The suffix is empty for a one-segment path, and otherwise splits back into exactly the segments after the first. |
| `Paths.NameAndSuffix` | index.js:153-154 | The converter name is the text before the first `/`, and the suffix is everything after it (empty when there is no `/`). |
| `Paths.ConverterPath` | index.js:153-156 | `/<name>/<suffix>` selects `name` and passes `suffix` through unchanged, slashes and all. |
| `Converters.Header` | index.js:43-44 | A header is present exactly when the request carries it, with the value it carries. |
| `Converters.HeaderText` | index.js:51 | An absent header concatenates as `undefined`, a present one as its value. |
| `Converters.Convert` | index.js:171 | `test` always returns a descriptor of the decoded body and never fails or confirms; only `sns2slack` can confirm, decline or fail. |
| `Converters.Lookup` | index.js:156 | `test` and `sns2slack` find their converters, Object.prototype names find an inherited built-in, and every other name finds nothing. |
| `Converters.TestConversion` | index.js:25-33 | The `test` descriptor is the decoded body as JSON, with no method, headers or `invalid`, to `x-target-url` when non-empty, else to the request bin followed by the suffix. |
| `Converters.Reparse` | index.js:36-38 | A string body is replaced by what it parses to and anything else is kept; only a string that is not JSON fails. |
| `Converters.SnsConversion` | index.js:35-110 | A confirmation GET is issued only for a SubscriptionConfirmation and only to a URL the https client accepts; its faults are the JSON parse, a property read on a null or undefined body, a string conversion, a non-string `SubscribeURL` and a non-https `SubscribeURL`. |
| `Converters.NotificationText` | index.js:85-106 | Both truthy gives the two converted to strings joined by `\n\n` (the values themselves for strings), failing exactly when either is a trap; one truthy gives that one; neither gives the marked block around the payload's JSON. The text is always truthy. |
| `Converters.TestForwardsBody` | index.js:25-33 | `test` always forwards the decoded body unchanged as JSON, to `x-target-url` when it is non-empty, else to `http://requestb.in/` plus the suffix. |
| `Converters.SnsTargetsSlack` | index.js:40-41 | Every `sns2slack` descriptor posts JSON `{text}` to `https://hooks.slack.com/services/` plus the suffix. |
| `Converters.SnsSubscription` | index.js:56-83 | A confirmation GET is issued only for SubscriptionConfirmation. For a string `SubscribeURL` the https client accepts, it goes out exactly once to that URL and the result announces the subscription to the header's topic; for any other protocol, `http:` among them, the process crashes. |
| `Converters.SnsUnsubscription` | index.js:46-54 | UnsubscribeConfirmation announces the unsubscription from the header's topic, with no side call. |
| `Converters.SnsNotificationForwarded` | index.js:85-106 | A Notification never yields null: for any body, whenever the converter returns it returns a descriptor with truthy text; it fails only on a body that is not JSON, a null or undefined body, or a subject and message that cannot be converted. |
| `Converters.SnsNumericSubject` | index.js:93 | A numeric subject is written by the runtime's number formatting: subject 5 and message `M` give that text followed by `\n\nM`. |
| `Converters.SnsSubjectAndMessage` | index.js:93 | Subject `S` and Message `M` give exactly the text `S\n\nM`. |
| `Converters.SnsIgnoresOtherTypes` | index.js:109 | Any other message type yields null, with no side call; only a body that is not valid JSON can fail first. |
| `Relay.HandleQueryRequest` | index.js:142-150 | `/` gets 200 with the greeting, any other path 404 with an empty body, and neither sets a Content-Type. |
| `Relay.MethodOf` | index.js:185 | The outbound method is never empty: the converter's method when it gives a non-empty one, POST otherwise. |
| `Relay.BaseHeaders` | index.js:186 | The outbound headers start from the converter's headers, or from none. |
| `Foreign.ClientAccepts` | index.js:194 | A request client accepts options exactly when their protocol is absent or the client's own. |
| `Relay.ClientProtocol` | index.js:193 | The https client is chosen exactly for `https:`, the http client for everything else. |
| `Relay.OutboundFor` | index.js:184-194 | The method defaults to POST. The converter's headers are kept, with Content-Type set to the formatter's type (text/plain exactly for the default). Content-Length is the body length, 0 exactly for an empty body. https is used exactly for `https:`. It fails exactly on an inherited format name, then on a protocol other than `http:`/`https:`/none, then on an unwritable body, with that fault. |
| `Relay.Proxied` | index.js:201-215 | The caller's reply carries the upstream's status, Content-Type and body as they came, or 500 with the error's message. |
| `Relay.Forward` | index.js:171-215 | The converter's confirmation stays issued; a request goes upstream exactly when a descriptor without `invalid` can be built, and is then that built request with the proxied reply; a crash comes only from building it. |
| `Relay.Webhook` | index.js:152-219 | A forwarded request is always answered by proxying; one answered without forwarding gets 200, 400 or 404; only an SNS subscription confirmation issues a confirmation GET. |
| `Relay.HandleRequest` | index.js:221-231 | Only a POST can confirm, forward or crash; every other method is answered at once; a forwarded request is always answered by proxying. |
| `Relay.HandleWebhookRequest` | index.js:152-219 | The statement-by-statement handler, which builds the request options and headers by reassigning local values in the order index.js writes them, produces exactly the `Webhook` exchange. |
| `Relay.MethodDispatch` | index.js:221-231 | `GET /` gives 200 `Gotcha!`, any other GET 404 with an empty body, and any method but GET and POST 405; none sends anything upstream. |
| `Relay.UnknownConverterNotFound` | index.js:156-160 | A name outside the converter table gives 404 with an empty body; no converter runs and nothing is sent. |
| `Relay.DeclinedOrInvalid` | index.js:172-180 | A null result gives 200 with an empty body; `invalid` gives 400 with that text. No outbound request is made in either case. |
| `Relay.ForwardedComesFromConverter` | index.js:171-193 | Whatever is sent upstream is the encoding of the descriptor the converter returned. |
| `Relay.ReplyFollowsUpstream` | index.js:194-215 | After forwarding, the caller gets the upstream status, content type and body unchanged, or 500 with the error message. Without forwarding, the upstream outcome changes nothing. |
| `Relay.MissingContentTypeCrashes` | index.js:166-169 | A POST to a known converter without Content-Type throws in `parseData`; nothing is confirmed or sent. |
| `Relay.ConvertedRequest` | index.js:152-171 | Once a known converter has returned, the request's outcome is what the relay step makes of its result. |
| `Relay.TestConverts` | index.js:25-33 | POST /test with JSON and `x-target-url` reaches `test`, which describes a JSON post of the parsed body to that URL. |
| `Relay.TestRelaysJson` | index.js:184-216 | For a target URL of protocol `http:`, `https:` or none, that request is sent as a POST of the re-encoded JSON with Content-Type application/json and its Content-Length, and the target's reply is proxied. |
| `Relay.SlackPath` | index.js:40 | `/sns2slack/<suffix>` selects `sns2slack` with that suffix. |
| `Relay.SlackTargetFromPath` | index.js:40-41 | Whatever a POST to `/sns2slack/<suffix>` sends goes to the Slack webhook URL for that suffix, over https exactly when its protocol parses as `https:`. |

## Left out

- The HTTP server, the listening port and `process.env.PORT` (index.js:233-236) are I/O.
- Sending requests is not modelled. The outbound request and the SNS
  confirmation GET are values in the `Exchange`. How the outbound request ends
  is an input. How the confirmation GET ends is not modelled at all: its
  callbacks (index.js:59-75) only log.
- Of Node's request clients only the protocol check is modelled. What they
  do with the other parsed URL fields (host, port, path) is transport.
- Streamed bodies: the inbound and upstream bodies arrive in chunks
  (index.js:162-166, 196-201). The model receives each as one complete string.
- `console.log` output is logging. Two log lines can throw, and both
  crashes are in the model. One is the concatenation of an unconvertible
  `SubscribeURL` object (index.js:58). The other is `JSON.stringify(upstream)`
  (index.js:182), which throws only for the request object the inherited
  `constructor` converter returns. The model treats that call as a crash
  (`InheritedMember`).
- `JSON`, `querystring`, `url.parse` and number formatting are arbitrary
  functions in `Foreign.Lib`. Two simplifications follow:
  - `url.parse` of a string is assumed never to throw.
  - The model reads only its protocol and pathname.
- `String.prototype` patching (index.js:10-14): only the prefix test it
  defines is modelled.
- `request.locationSegments` (index.js:153) is passed to the converters as a
  value, not stored on the request object. Nothing else reads that field.
- `upstreamRequestOptions` and its headers object are local values that the
  method reassigns. The header writes also mutate the converter's own
  `headers` object through aliasing. Nothing reads that object afterwards, so
  the aliasing is not modelled.
- Timing and concurrency are not modelled:
  - both the response and `error` callbacks firing for one request;
  - an error after the reply has started;
  - a confirmation GET that never leaves a process that crashes just after
    issuing it.
- Relay.Proxied: an upstream reply without a Content-Type gives the header
  value `undefined` at index.js:203-205. Current Node's `writeHead` rejects
  that value with a TypeError, which ends the process. Older Node versions
  wrote it out. The model does not capture this crash, which depends on the
  Node version. It sends the reply with no Content-Type instead.
- Strings are sequences of Unicode scalar values. Lone UTF-16 surrogates
  cannot be represented.
- Inbound headers are a map with lower-case names. Node's merging of
  repeated headers is not modelled.
- Values have no functions or symbols, and numbers are finite: NaN and
  Infinity cannot be represented. The parsers produce no NaN, but
  `JSON.parse` gives Infinity for a literal too large for a double, such as
  `1e400`. Such a number is left out of the model. It would be truthy and
  convert to "Infinity", so nothing the handler decides depends on it.
- `Js.Get` ignores prototype properties, which is exact only for the keys
  the handler reads (`Subject`, `Message`, `SubscribeURL`).
