/** The part of the JavaScript runtime that the relay handler relies on:
    dynamically typed values, truthiness, the string conversion that `+`
    performs, and the string built-ins the handler calls. */
module Js {

  datatype Option<+T> = None | Some(value: T)

  /** Exceptions that the handler throws and that nothing catches. In Node an
      uncaught exception inside a request or stream callback ends the process,
      so each of these is a crash, not a response. */
  datatype Fault =
    | MissingContentType      // `contentType.startsWith` on an absent header
    | JsonSyntax              // `JSON.parse` rejected the text
    | MissingPathname         // `url.parse` gave no pathname, so `.match` is called on null
    | PathUnmatched           // the path regex did not match, so `[1]` is read from null
    | InheritedMember(name: string)  // a lookup table answered with an Object.prototype member
    | NullishProperty(key: string)   // a property read on null or undefined
    | NoPrimitive             // an object whose own `toString` is not callable was converted to a string
    | UrlNotString            // `url.parse` was given something other than a string
    | BodyNotString           // the request body is not a string, so its Content-Length or its write throws
    | UnsupportedProtocol(protocol: string)  // Node's request client was given a URL of another protocol

  datatype Result<+T> = Ok(value: T) | Err(fault: Fault) {
    predicate IsFailure() { Err? }
    function PropagateFailure<U>(): Result<U>
      requires Err?
    {
      Err(fault)
    }
    function Extract(): T
      requires Ok?
    {
      value
    }
  }

  /** The values that `JSON.parse` and `querystring.parse` can produce. */
  datatype Value =
    | Undefined
    | Null
    | Bool(b: bool)
    | Num(n: real)
    | Str(s: string)
    | Arr(elems: seq<Value>)
    | Obj(props: map<string, Value>)

  /** JavaScript truthiness. Neither parser produces NaN, so a number is
      falsy exactly when it is zero. */
  predicate Truthy(v: Value)
    ensures Truthy(v) <==>
      v != Undefined && v != Null && v != Bool(false) && v != Num(0.0) && v != Str("")
  {
    match v
    case Undefined => false
    case Null => false
    case Bool(b) => b
    case Num(n) => n != 0.0
    case Str(s) => s != ""
    case Arr(_) => true
    case Obj(_) => true
  }

  /** The names every plain object inherits from Object.prototype. Looking one
      of them up with `obj[name]` finds a built-in instead of `undefined`. */
  const ObjectPrototypeNames: set<string> := {
    "constructor", "hasOwnProperty", "isPrototypeOf", "propertyIsEnumerable",
    "toLocaleString", "toString", "valueOf", "__proto__",
    "__defineGetter__", "__defineSetter__", "__lookupGetter__", "__lookupSetter__"
  }

  /** `v[key]` for a key that no built-in prototype defines (the handler reads
      only `Subject`, `Message` and `SubscribeURL` this way). */
  function Get(v: Value, key: string): (r: Result<Value>)
    ensures r.Err? <==> v.Undefined? || v.Null?
    ensures r.Err? ==> r.fault == NullishProperty(key)
    ensures v.Obj? && key in v.props ==> r == Ok(v.props[key])
    ensures r.Ok? && !(v.Obj? && key in v.props) ==> r == Ok(Undefined)
  {
    match v
    case Undefined => Err(NullishProperty(key))
    case Null => Err(NullishProperty(key))
    case Obj(props) => Ok(if key in props then props[key] else Undefined)
    case _ => Ok(Undefined)
  }

  /** The values `"" + v` throws on: an object with an own `toString`
      property (ToPrimitive finds nothing callable that yields a primitive),
      or an array holding such a value at any depth. */
  predicate Trap(v: Value) {
    match v
    case Obj(props) => "toString" in props
    case Arr(elems) => exists i :: 0 <= i < |elems| && Trap(elems[i])
    case _ => false
  }

  /** What `"" + v` yields: ToPrimitive followed by ToString. Number
      formatting is the runtime's and is passed in. An object converts through
      Object.prototype.toString unless it has an own `toString` property,
      which a parsed value can never make callable. Arrays join their
      elements with commas, writing null and undefined as nothing. */
  function ToText(numberText: real -> string, v: Value): (r: Result<string>)
    ensures r.Err? <==> Trap(v)
    ensures r.Err? ==> r.fault == NoPrimitive
    ensures v.Str? ==> r == Ok(v.s)
    decreases v, 1
  {
    match v
    case Undefined => Ok("undefined")
    case Null => Ok("null")
    case Bool(b) => Ok(if b then "true" else "false")
    case Num(n) => Ok(numberText(n))
    case Str(s) => Ok(s)
    case Arr(elems) => JoinElements(numberText, v, 0)
    case Obj(props) => if "toString" in props then Err(NoPrimitive) else Ok("[object Object]")
  }

  /** Array.prototype.join(",") on the elements of `arr` from index `i` on.
      It fails exactly when one of those elements is a trap. */
  function JoinElements(numberText: real -> string, arr: Value, i: nat): (r: Result<string>)
    requires arr.Arr? && i <= |arr.elems|
    ensures r.Err? <==> exists j :: i <= j < |arr.elems| && Trap(arr.elems[j])
    ensures r.Err? ==> r.fault == NoPrimitive
    ensures i + 1 == |arr.elems| && arr.elems[i].Str? ==> r == Ok(arr.elems[i].s)
    decreases arr, 0, |arr.elems| - i
  {
    if i == |arr.elems| then Ok("")
    else
      var e := arr.elems[i];
      var head :- if e.Undefined? || e.Null? then Ok("") else ToText(numberText, e);
      if i + 1 == |arr.elems| then Ok(head)
      else
        var tail :- JoinElements(numberText, arr, i + 1);
        Ok(head + "," + tail)
  }

  /** The prefix test `this.slice(0, str.length) == str`; `slice` stops at the
      end of a string shorter than `str`. Node's native `startsWith` agrees on
      string arguments. */
  function StartsWith(s: string, prefix: string): (r: bool)
    ensures r <==> |prefix| <= |s| && s[..|prefix|] == prefix
  {
    var end := if |prefix| <= |s| then |prefix| else |s|;
    s[..end] == prefix
  }

  /** The `length` of a string: its number of UTF-16 code units. A character
      above U+FFFF takes two. */
  function Utf16Length(s: string): (n: nat)
    ensures |s| <= n <= 2 * |s|
    ensures n == 0 <==> s == ""
  {
    if |s| == 0 then 0
    else (if s[0] as int > 0xFFFF then 2 else 1) + Utf16Length(s[1..])
  }

  /** `s.split(sep)` for a one-character separator: the pieces between
      separators, with an empty piece before a leading and after a trailing
      separator, and `[""]` for the empty string. */
  function Split(s: string, sep: char): (parts: seq<string>)
    ensures |parts| >= 1
    ensures forall i :: 0 <= i < |parts| ==> sep !in parts[i]
    ensures sep !in s ==> parts == [s]
    decreases |s|
  {
    if |s| == 0 then [""]
    else
      var rest := Split(s[1..], sep);
      if s[0] == sep then [""] + rest
      else
        assert forall i :: 1 <= i < |rest| ==> rest[i] == rest[1..][i - 1];
        assert sep !in s ==> sep !in s[1..] && [s[0]] + s[1..] == s;
        [[s[0]] + rest[0]] + rest[1..]
  }

  /** `parts.join(sep)`; the empty array joins to the empty string. The
      text starts with the first piece, followed by the separator when more
      pieces follow, and holds no separator the pieces do not bring. */
  function Join(parts: seq<string>, sep: char): (r: string)
    ensures |parts| >= 1 ==> parts[0] <= r
    ensures |parts| >= 2 ==> |parts[0]| < |r| && r[|parts[0]|] == sep
    ensures |parts| <= 1 && (forall i :: 0 <= i < |parts| ==> sep !in parts[i]) ==> sep !in r
  {
    if |parts| == 0 then ""
    else if |parts| == 1 then parts[0]
    else parts[0] + [sep] + Join(parts[1..], sep)
  }

  /** Joining the pieces of a split gives back the string. */
  lemma {:induction false} JoinSplit(s: string, sep: char)
    ensures Join(Split(s, sep), sep) == s
    decreases |s|
  {
    if |s| > 0 {
      var rest := Split(s[1..], sep);
      JoinSplit(s[1..], sep);
      if s[0] == sep {
        assert ([""] + rest)[1..] == rest;
      } else if |rest| > 1 {
        var parts := [[s[0]] + rest[0]] + rest[1..];
        assert parts[1..] == rest[1..];
        assert s == [s[0]] + s[1..];
      } else {
        assert s == [s[0]] + s[1..];
      }
    }
  }

  /** The first piece of a split ends at the first separator, and splitting
      continues after it. */
  lemma {:induction false} SplitAtFirst(s: string, sep: char, k: nat)
    requires k < |s| && s[k] == sep && sep !in s[..k]
    ensures Split(s, sep) == [s[..k]] + Split(s[k + 1..], sep)
    decreases k
  {
    if k > 0 {
      assert s[0] == s[..k][0];
      assert s[1..][..k - 1] == s[1..k];
      assert sep !in s[1..][..k - 1];
      SplitAtFirst(s[1..], sep, k - 1);
      assert s[1..][k..] == s[k + 1..];
      assert [s[0]] + s[1..k] == s[..k];
    }
  }

  /** Splitting a join of separator-free pieces gives back the pieces. */
  lemma {:induction false} SplitJoin(parts: seq<string>, sep: char)
    requires |parts| >= 1
    requires forall i :: 0 <= i < |parts| ==> sep !in parts[i]
    ensures Split(Join(parts, sep), sep) == parts
    decreases |parts|
  {
    if |parts| > 1 {
      var rest := parts[1..];
      SplitJoin(rest, sep);
      var s := Join(parts, sep);
      var k := |parts[0]|;
      assert s == parts[0] + [sep] + Join(rest, sep);
      assert s[..k] == parts[0];
      assert s[k + 1..] == Join(rest, sep);
      SplitAtFirst(s, sep, k);
    }
  }
}
