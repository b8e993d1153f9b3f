/** Turning an inbound pathname into `request.locationSegments`: the regex
    `^\/?(.*)\/?$` and a split on `/`. */
module Paths {
  import opened Js

  /** The characters a regex `.` does not match. */
  predicate IsLineTerminator(c: char) {
    c == '\n' || c == '\r' || c == '\U{2028}' || c == '\U{2029}'
  }

  /** The first capture group of `^\/?(.*)\/?$`. The pattern matches exactly
      when no line terminator occurs; the optional leading slash then takes a
      leading `/`, and the greedy `.*` takes everything else, a trailing `/`
      included, so at most one leading slash is removed and nothing else. */
  function PathGroup(pathname: string): (g: Option<string>)
    ensures g.Some? <==> forall i :: 0 <= i < |pathname| ==> !IsLineTerminator(pathname[i])
    ensures g.Some? ==> pathname == g.value || pathname == "/" + g.value
    ensures g.Some? && |pathname| > 0 && pathname[0] == '/' ==> g.value == pathname[1..]
  {
    if exists i :: 0 <= i < |pathname| && IsLineTerminator(pathname[i]) then None
    else if |pathname| > 0 && pathname[0] == '/' then Some(pathname[1..])
    else Some(pathname)
  }

  /** `request.locationSegments`, or the TypeError of indexing a failed
      match. */
  function Segments(pathname: string): (r: Result<seq<string>>)
    ensures r.Err? <==> PathGroup(pathname).None?
    ensures r.Err? ==> r.fault == PathUnmatched
    ensures r.Ok? ==> |r.value| >= 1
    ensures r.Ok? ==> Join(r.value, '/') == PathGroup(pathname).value
    ensures r.Ok? ==> forall i :: 0 <= i < |r.value| ==> '/' !in r.value[i]
  {
    match PathGroup(pathname)
    case None => Err(PathUnmatched)
    case Some(g) => JoinSplit(g, '/'); Ok(Split(g, '/'))
  }

  /** `locationSegments.slice(1).join('/')`: empty for a one-segment path,
      and otherwise a text that splits back into exactly the segments after
      the first. */
  function Suffix(segments: seq<string>): (r: string)
    ensures |segments| <= 1 ==> r == ""
    ensures |segments| >= 2 && (forall i :: 0 <= i < |segments| ==> '/' !in segments[i]) ==>
      Split(r, '/') == segments[1..]
  {
    if |segments| == 0 then ""
    else
      RestSplits(segments);
      Join(segments[1..], '/')
  }

  /** Joining the segments after the first and splitting again gives them
      back, when no segment holds a `/`. */
  lemma RestSplits(segments: seq<string>)
    requires |segments| >= 1
    ensures |segments| >= 2 && (forall i :: 0 <= i < |segments| ==> '/' !in segments[i]) ==>
      Split(Join(segments[1..], '/'), '/') == segments[1..]
  {
    if |segments| >= 2 && (forall i :: 0 <= i < |segments| ==> '/' !in segments[i]) {
      var rest := segments[1..];
      assert forall i :: 0 <= i < |rest| ==> rest[i] == segments[i + 1];
      SplitJoin(rest, '/');
    }
  }

  /** The converter name is the text of the path before its first `/`
      (after the optional leading one), and the suffix is everything after
      that `/`; with no further `/` the name is the whole text and the suffix
      is empty. */
  lemma {:induction false} NameAndSuffix(pathname: string, g: string)
    requires PathGroup(pathname) == Some(g)
    ensures Segments(pathname).Ok?
    ensures '/' !in g ==> Segments(pathname).value == [g] && Suffix(Segments(pathname).value) == ""
    ensures forall k :: 0 <= k < |g| && g[k] == '/' && '/' !in g[..k] ==>
      Segments(pathname).value[0] == g[..k] && Suffix(Segments(pathname).value) == g[k + 1..]
  {
    forall k | 0 <= k < |g| && g[k] == '/' && '/' !in g[..k]
      ensures Segments(pathname).value[0] == g[..k] && Suffix(Segments(pathname).value) == g[k + 1..]
    {
      SplitAtFirst(g, '/', k);
      var rest := Split(g[k + 1..], '/');
      assert Segments(pathname).value == [g[..k]] + rest;
      assert ([g[..k]] + rest)[1..] == rest;
      JoinSplit(g[k + 1..], '/');
    }
  }

  /** The path `/<name>/<suffix>` names converter `name` and hands it
      `suffix` unchanged, whatever slashes the suffix holds. */
  lemma ConverterPath(pathname: string, name: string, suffix: string)
    requires pathname == "/" + name + "/" + suffix
    requires '/' !in name
    requires forall i :: 0 <= i < |pathname| ==> !IsLineTerminator(pathname[i])
    ensures Segments(pathname).Ok?
    ensures Segments(pathname).value[0] == name
    ensures Suffix(Segments(pathname).value) == suffix
  {
    var g := name + "/" + suffix;
    assert pathname[1..] == g;
    assert g[..|name|] == name;
    assert g[|name| + 1..] == suffix;
    NameAndSuffix(pathname, g);
  }
}
