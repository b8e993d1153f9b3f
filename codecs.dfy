/** The `formatters` table and the default formatter: choosing a decoder by
    the inbound Content-Type and an encoder by the converter's format name. */
module Codecs {
  import opened Js
  import opened Foreign

  datatype Formatter = Form | Json | Plain

  /** The `contentType` of each formatter; Plain is `defaultFormatter`. */
  function ContentType(f: Formatter): string {
    match f
    case Form => "application/x-www-form-urlencoded"
    case Json => "application/json"
    case Plain => "text/plain"
  }

  /** The `formatters` object as its keys are enumerated: form, then json. */
  const Formatters: seq<(string, Formatter)> := [("form", Form), ("json", Json)]

  /** The index of the first entry whose content type is a prefix of
      `contentType`, or the length of the table when there is none. */
  function FirstMatch(table: seq<(string, Formatter)>, contentType: string): (k: nat)
    ensures k <= |table|
    ensures k < |table| ==> StartsWith(contentType, ContentType(table[k].1))
    ensures forall j :: 0 <= j < k ==> !StartsWith(contentType, ContentType(table[j].1))
  {
    if |table| == 0 then 0
    else if StartsWith(contentType, ContentType(table[0].1)) then 0
    else 1 + FirstMatch(table[1..], contentType)
  }

  /** The formatter `parseData` uses for a Content-Type header. Parameters
      after the media type (a charset, say) do not change the choice. */
  function Negotiate(contentType: string): (f: Formatter)
    ensures f == Form <==> StartsWith(contentType, ContentType(Form))
    ensures f == Json <==>
      !StartsWith(contentType, ContentType(Form)) && StartsWith(contentType, ContentType(Json))
    ensures f == Plain <==>
      forall j :: 0 <= j < |Formatters| ==> !StartsWith(contentType, ContentType(Formatters[j].1))
  {
    var k := FirstMatch(Formatters, contentType);
    assert Formatters[0].1 == Form && Formatters[1].1 == Json;
    if k < |Formatters| then Formatters[k].1 else Plain
  }

  /** The formatter's `parse`. Only JSON can fail, on text that is not
      JSON; the default formatter keeps the text as it is. */
  function Decode(lib: Lib, f: Formatter, text: string): (r: Result<Value>)
    ensures r.Err? <==> f == Json && lib.jsonParse(text).None?
    ensures r.Err? ==> r.fault == JsonSyntax
    ensures f == Json && r.Ok? ==> lib.jsonParse(text) == Some(r.value)
    ensures f == Form ==> r == Ok(lib.qsParse(text))
    ensures f == Plain ==> r == Ok(Str(text))
  {
    match f
    case Form => Ok(lib.qsParse(text))
    case Json => (match lib.jsonParse(text) case None => Err(JsonSyntax) case Some(v) => Ok(v))
    case Plain => Ok(Str(text))
  }

  /** The formatter's `stringify`, together with the failure of writing its
      result when that is not a string: `JSON.stringify(undefined)` and the
      identity on a non-string both give the request a body it cannot write. */
  function Encode(lib: Lib, f: Formatter, data: Value): (r: Result<string>)
    ensures r.Err? <==> (f == Json && data.Undefined?) || (f == Plain && !data.Str?)
    ensures r.Err? ==> r.fault == BodyNotString
    ensures f == Json && !data.Undefined? ==> r == Ok(lib.jsonStringify(data))
    ensures f == Form ==> r == Ok(lib.qsStringify(data))
    ensures f == Plain && data.Str? ==> r == Ok(data.s)
  {
    match f
    case Form => Ok(lib.qsStringify(data))
    case Json => if data.Undefined? then Err(BodyNotString) else Ok(lib.jsonStringify(data))
    case Plain => if data.Str? then Ok(data.s) else Err(BodyNotString)
  }

  /** `parseData(text, contentType)`, with the header absent when the request
      has none. An absent header throws; otherwise only a body the JSON
      formatter was chosen for and cannot parse fails. */
  function Parse(lib: Lib, text: string, contentType: Option<string>): (r: Result<Value>)
    ensures contentType.None? <==> r == Err(MissingContentType)
    ensures contentType.Some? && r.Err? ==> r.fault == JsonSyntax && Negotiate(contentType.value) == Json
    ensures contentType.Some? && Negotiate(contentType.value) == Form ==> r == Ok(lib.qsParse(text))
  {
    match contentType
    case None => Err(MissingContentType)
    case Some(ct) => Decode(lib, Negotiate(ct), text)
  }

  /** `parseData`: the `for…in` walk over the formatters that returns from
      the first one whose content type prefixes the header. */
  method ParseData(lib: Lib, text: string, contentType: Option<string>) returns (r: Result<Value>)
    ensures r == Parse(lib, text, contentType)
  {
    if contentType.None? {
      return Err(MissingContentType);
    }
    var header := contentType.value;
    var i := 0;
    while i < |Formatters|
      invariant 0 <= i <= |Formatters|
      invariant forall j :: 0 <= j < i ==> !StartsWith(header, ContentType(Formatters[j].1))
    {
      if StartsWith(header, ContentType(Formatters[i].1)) {
        return Decode(lib, Formatters[i].1, text);
      }
      i := i + 1;
    }
    return Decode(lib, Plain, text);
  }

  /** A Content-Type that no formatter's type prefixes leaves the body as the
      text it arrived as; only an absent header fails. */
  lemma UnmatchedIsText(lib: Lib, text: string, contentType: Option<string>)
    requires contentType.Some? ==>
      forall j :: 0 <= j < |Formatters| ==> !StartsWith(contentType.value, ContentType(Formatters[j].1))
    ensures Parse(lib, text, contentType) == if contentType.None? then Err(MissingContentType) else Ok(Str(text))
  {
  }

  /** The index of the entry whose key is exactly `name`, or the length of
      the table when there is none. */
  function IndexOfName(table: seq<(string, Formatter)>, name: string): (k: nat)
    ensures k <= |table|
    ensures k < |table| ==> table[k].0 == name
    ensures forall j :: 0 <= j < k ==> table[j].0 != name
  {
    if |table| == 0 then 0
    else if table[0].0 == name then 0
    else 1 + IndexOfName(table[1..], name)
  }

  /** `formatters[upstream.format] || defaultFormatter`. A name inherited from
      Object.prototype finds a built-in without a `stringify`, and calling it
      throws. */
  function Named(format: Option<string>): (r: Result<Formatter>)
    ensures format.None? ==> r == Ok(Plain)
    ensures format.Some? ==> (r == Ok(Form) <==> format.value == "form")
    ensures format.Some? ==> (r == Ok(Json) <==> format.value == "json")
    ensures format.Some? ==> (r.Err? <==> format.value in ObjectPrototypeNames)
    ensures r.Err? ==> r.fault == InheritedMember(format.value)
  {
    match format
    case None => Ok(Plain)
    case Some(name) =>
      var k := IndexOfName(Formatters, name);
      if k < |Formatters| then Ok(Formatters[k].1)
      else if name in ObjectPrototypeNames then Err(InheritedMember(name))
      else Ok(Plain)
  }

  /** The content type a formatter labels its output with selects that same
      formatter again when the output is parsed, so each codec is closed
      under its own label. */
  lemma LabelSelectsFormatter(f: Formatter)
    ensures Negotiate(ContentType(f)) == f
  {
    var form, json := ContentType(Form), ContentType(Json);
    assert json[12] != form[12];
    assert !StartsWith(json, form);
    assert !StartsWith(form, json) by { assert form[..|json|][12] != json[12]; }
    assert !StartsWith(ContentType(Plain), form) && !StartsWith(ContentType(Plain), json);
  }

  /** A JSON media type with parameters is still decoded as JSON. */
  lemma JsonWithCharset()
    ensures Negotiate("application/json; charset=utf-8") == Json
  {
    var ct := "application/json; charset=utf-8";
    assert ct[..|ContentType(Json)|] == ContentType(Json);
    assert ct[12] != ContentType(Form)[12];
  }

  /** Decoding what a formatter encoded gives back the value, provided the
      library's parse inverts its stringify on it; the default formatter
      needs no such proviso. */
  lemma RoundTrip(lib: Lib, f: Formatter, v: Value)
    requires Encode(lib, f, v).Ok?
    requires f == Form ==> lib.qsParse(lib.qsStringify(v)) == v
    requires f == Json ==> lib.jsonParse(lib.jsonStringify(v)) == Some(v)
    ensures Decode(lib, f, Encode(lib, f, v).value) == Ok(v)
  {
  }
}
