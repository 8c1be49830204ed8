/**
 * The pieces of a URL that the deep-link path looks at: the scheme, the host and
 * the query pairs. This stands for NSURL / System.Uri splitting and for
 * `HttpUtility.ParseQueryString`, without normalisation or percent-decoding.
 */
module Url {
  import opened Wrappers
  import Strings

  /** One `name=value` query segment; a segment without '=' has no name. */
  datatype QueryPair = QueryPair(key: Option<string>, value: string)

  datatype Uri = Uri(scheme: string, host: string, query: seq<QueryPair>)

  /** Index of the first character of `s` that is in `stops`, or |s| when there is none. */
  function IndexOfAny(s: string, stops: set<char>): (r: nat)
    ensures r <= |s|
    ensures r < |s| ==> s[r] in stops
    ensures forall i :: 0 <= i < r ==> s[i] !in stops
  {
    if |s| == 0 || s[0] in stops then 0 else 1 + IndexOfAny(s[1..], stops)
  }

  /** The pieces of `s` between occurrences of `sep` (at least one piece). */
  function SplitOn(s: string, sep: char): (parts: seq<string>)
    ensures |parts| >= 1
    decreases |s|
  {
    var j := IndexOfAny(s, {sep});
    if j == |s| then [s] else [s[..j]] + SplitOn(s[j + 1..], sep)
  }

  /** A segment splits at its first '='; without one, the whole segment is a nameless value. */
  function ParsePair(segment: string): QueryPair {
    var j := IndexOfAny(segment, {'='});
    if j == |segment| then QueryPair(None, segment)
    else QueryPair(Some(segment[..j]), segment[j + 1..])
  }

  function ParsePairs(segments: seq<string>): (pairs: seq<QueryPair>)
    ensures |pairs| == |segments|
  {
    if segments == [] then [] else [ParsePair(segments[0])] + ParsePairs(segments[1..])
  }

  /** `HttpUtility.ParseQueryString` of a query without its leading '?'. */
  function ParseQueryString(query: string): seq<QueryPair> {
    if query == "" then [] else ParsePairs(SplitOn(query, '&'))
  }

  /** The values of every pair whose name equals `name`, ignoring ASCII case. */
  function ValuesOf(pairs: seq<QueryPair>, name: string): (vs: seq<string>)
    ensures |vs| <= |pairs|
  {
    if pairs == [] then []
    else
      var first := pairs[0];
      var rest := ValuesOf(pairs[1..], name);
      if first.key.Some? && Strings.ToLower(first.key.value) == Strings.ToLower(name)
      then [first.value] + rest else rest
  }

  function JoinWithComma(vs: seq<string>): string
    requires |vs| > 0
  {
    if |vs| == 1 then vs[0] else vs[0] + "," + JoinWithComma(vs[1..])
  }

  /**
   * `NameValueCollection[name]`: no value when the name is missing, otherwise
   * all of its values joined with ','.
   */
  function QueryGet(pairs: seq<QueryPair>, name: string): Option<string> {
    var vs := ValuesOf(pairs, name);
    if vs == [] then None else Some(JoinWithComma(vs))
  }

  /** The query pairs of the part of a URL after the host: from the first '?' to the fragment. */
  function QueryOf(tail: string): seq<QueryPair> {
    var beforeFragment := tail[..IndexOfAny(tail, {'#'})];
    var q := IndexOfAny(beforeFragment, {'?'});
    ParseQueryString(if q < |beforeFragment| then beforeFragment[q + 1..] else "")
  }

  /**
   * The part of a URL after `scheme:`. After "//" the host runs to the first
   * '/', '?' or '#'; a URL without "//" has an empty host.
   */
  function ParseHierarchical(scheme: string, rest: string): Uri {
    if |rest| >= 2 && rest[..2] == "//" then
      var afterSlashes := rest[2..];
      var hostEnd := IndexOfAny(afterSlashes, {'/', '?', '#'});
      Uri(scheme, afterSlashes[..hostEnd], QueryOf(afterSlashes[hostEnd..]))
    else
      Uri(scheme, "", QueryOf(rest))
  }

  /** Splits an absolute URL; the scheme ends at the first ':' and is not empty. */
  function ParseUrl(s: string): Option<Uri> {
    var i := IndexOfAny(s, {':'});
    if i == 0 || i == |s| then None else Some(ParseHierarchical(s[..i], s[i + 1..]))
  }

  /** The first stop is at `k` when `s[k]` is one and nothing before it is. */
  lemma IndexOfAnyIs(s: string, stops: set<char>, k: nat)
    requires k <= |s| && (k < |s| ==> s[k] in stops)
    requires forall i :: 0 <= i < k ==> s[i] !in stops
    ensures IndexOfAny(s, stops) == k
  {
  }

  /** Renders `scheme://host?name=value`. */
  function Compose(scheme: string, host: string, name: string, value: string): string {
    scheme + "://" + host + "?" + name + "=" + value
  }

  /** A single `name=value` segment free of '&' parses into one named pair. */
  lemma ParseSinglePair(name: string, value: string)
    requires '&' !in name && '=' !in name
    requires '&' !in value
    ensures ParseQueryString(name + "=" + value) == [QueryPair(Some(name), value)]
  {
    var segment := name + "=" + value;
    assert forall i :: 0 <= i < |name| ==> segment[i] == name[i];
    assert forall i :: |name| < i < |segment| ==> segment[i] == value[i - |name| - 1];
    IndexOfAnyIs(segment, {'&'}, |segment|);
    assert SplitOn(segment, '&') == [segment];
    IndexOfAnyIs(segment, {'='}, |name|);
    assert segment[..|name|] == name;
    assert segment[|name| + 1..] == value;
  }

  /** The query pairs after the host are those of `query` when it has no fragment. */
  lemma QueryOfTail(query: string)
    requires '#' !in query
    ensures QueryOf("?" + query) == ParseQueryString(query)
  {
    var tail := "?" + query;
    assert forall i :: 1 <= i < |tail| ==> tail[i] == query[i - 1];
    IndexOfAnyIs(tail, {'#'}, |tail|);
    assert tail[..|tail|] == tail;
    IndexOfAnyIs(tail, {'?'}, 0);
    assert tail[1..] == query;
  }

  /** `//host?query` splits into the host and the query pairs. */
  lemma HierarchicalOf(scheme: string, host: string, query: string)
    requires '/' !in host && '?' !in host && '#' !in host
    requires '#' !in query
    ensures ParseHierarchical(scheme, "//" + host + "?" + query)
         == Uri(scheme, host, ParseQueryString(query))
  {
    var rest := "//" + host + "?" + query;
    assert rest[..2] == "//";
    var afterSlashes := rest[2..];
    assert afterSlashes == host + ("?" + query);
    assert forall i :: 0 <= i < |host| ==> afterSlashes[i] == host[i];
    IndexOfAnyIs(afterSlashes, {'/', '?', '#'}, |host|);
    assert afterSlashes[|host|..] == "?" + query;
    assert afterSlashes[..|host|] == host;
    QueryOfTail(query);
  }

  /**
   * `scheme://host?query`, with a scheme free of ':', a host free of '/', '?'
   * and '#', and a query free of '#', splits into exactly those parts.
   */
  lemma ParseSchemeHostQuery(scheme: string, host: string, query: string)
    requires |scheme| > 0 && ':' !in scheme
    requires '/' !in host && '?' !in host && '#' !in host
    requires '#' !in query
    ensures ParseUrl(scheme + "://" + host + "?" + query)
         == Some(Uri(scheme, host, ParseQueryString(query)))
  {
    var rest := "//" + host + "?" + query;
    var s := scheme + "://" + host + "?" + query;
    assert s == scheme + ":" + rest;
    assert forall i :: 0 <= i < |scheme| ==> s[i] == scheme[i];
    IndexOfAnyIs(s, {':'}, |scheme|);
    assert s[..|scheme|] == scheme;
    assert s[|scheme| + 1..] == rest;
    HierarchicalOf(scheme, host, query);
  }

  /**
   * A URL composed from a scheme without ':', a host without '/', '?' or '#',
   * and one `name=value` pair free of '&', '#' and (in the name) '=' parses back
   * into exactly those parts.
   */
  lemma ParseComposed(scheme: string, host: string, name: string, value: string)
    requires |scheme| > 0 && ':' !in scheme
    requires '/' !in host && '?' !in host && '#' !in host
    requires '&' !in name && '=' !in name && '#' !in name
    requires '&' !in value && '#' !in value
    ensures ParseUrl(Compose(scheme, host, name, value))
         == Some(Uri(scheme, host, [QueryPair(Some(name), value)]))
  {
    var query := name + "=" + value;
    assert Compose(scheme, host, name, value) == scheme + "://" + host + "?" + query;
    assert forall i :: 0 <= i < |query| ==> query[i] == (if i < |name| then name[i] else if i == |name| then '=' else value[i - |name| - 1]);
    ParseSchemeHostQuery(scheme, host, query);
    ParseSinglePair(name, value);
  }

  /** A single pair whose name matches is read back unchanged. */
  lemma QueryGetSingle(name: string, value: string)
    ensures QueryGet([QueryPair(Some(name), value)], name) == Some(value)
  {
    assert [QueryPair(Some(name), value)][1..] == [];
  }

  /** A name given twice reads back as both values joined with ','. */
  lemma QueryGetRepeated(name: string, first: string, second: string)
    ensures QueryGet([QueryPair(Some(name), first), QueryPair(Some(name), second)], name) == Some(first + "," + second)
  {
    var pairs := [QueryPair(Some(name), first), QueryPair(Some(name), second)];
    assert pairs[1..] == [QueryPair(Some(name), second)];
    QueryGetSingle(name, second);
    assert ValuesOf(pairs, name) == [first, second];
    assert [first, second][1..] == [second];
  }
}
