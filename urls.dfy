/** The parts of Python's `urllib.parse` the scraper uses, simplified to
    ASCII: `urlsplit`-style decomposition into scheme, network location,
    path, query and fragment, and `parse_qsl` with its default flags. */
module Urls {
  import opened Common
  import opened Strings

  datatype Url = Url(scheme: string, netloc: string, path: string, query: string, fragment: string)

  /** Index of the first character satisfying `p`, or `|s|` when none does. */
  function IndexWhere(s: string, p: char -> bool): (r: nat)
    ensures r <= |s|
    ensures forall i :: 0 <= i < r ==> !p(s[i])
    ensures r < |s| ==> p(s[r])
    decreases |s|
  {
    if s == [] || p(s[0]) then 0 else 1 + IndexWhere(s[1..], p)
  }

  predicate IsSchemeChar(c: char) {
    IsAsciiLetter(c) || IsAsciiDigit(c) || c == '+' || c == '-' || c == '.'
  }

  predicate EndsNetloc(c: char) { c == '/' || c == '?' || c == '#' }

  predicate IsColon(c: char) { c == ':' }

  /** The text before the first `c` and, when `c` occurs, the text after it
      (`s.split(c, 1)`); the second part is empty when `c` does not occur. */
  function SplitOnce(s: string, c: char): (r: (string, string))
    ensures c !in r.0
    ensures c in s ==> s == r.0 + [c] + r.1
    ensures c !in s ==> r == (s, "")
  {
    var i := IndexWhere(s, x => x == c);
    if i < |s| then
      assert s == s[..i] + [c] + s[i + 1..];
      (s[..i], s[i + 1..])
    else
      (s, "")
  }

  /** The scheme and what follows its colon, when the text before the first
      colon is a valid scheme; otherwise no scheme and the whole input. */
  function SplitScheme(url: string): (string, string) {
    var colon := IndexWhere(url, IsColon);
    if 0 < colon < |url| && IsAsciiLetter(url[0]) && AllSatisfy(url[..colon], IsSchemeChar) then
      (LowerAll(url[..colon]), url[colon + 1..])
    else
      ("", url)
  }

  /** After a leading `//`, the network location runs up to the first `/`,
      `?` or `#`; without `//` there is none. */
  function SplitNetloc(rest: string): (string, string) {
    if |rest| >= 2 && rest[..2] == "//" then
      var netEnd := 2 + IndexWhere(rest[2..], EndsNetloc);
      (rest[2..netEnd], rest[netEnd..])
    else
      ("", rest)
  }

  /** The characters `urlsplit` deletes wherever they occur: tab, carriage
      return and line feed. */
  predicate IsUnsafe(c: char) { c == '\t' || c == '\r' || c == '\n' }

  /** The C0 control characters and space, which `urlsplit` strips from the
      start of a URL. */
  predicate IsControlOrSpace(c: char) { c as int <= 32 }

  /** A text holding none of the characters `urlsplit` deletes. */
  predicate Safe(s: string) { '\t' !in s && '\r' !in s && '\n' !in s }

  /** `s` with every tab, carriage return and line feed deleted. */
  function RemoveUnsafe(s: string): (r: string)
    ensures Safe(r)
    ensures |r| <= |s|
    decreases |s|
  {
    if s == [] then []
    else (if IsUnsafe(s[0]) then [] else [s[0]]) + RemoveUnsafe(s[1..])
  }

  lemma {:induction false} RemoveUnsafeConcat(a: string, b: string)
    ensures RemoveUnsafe(a + b) == RemoveUnsafe(a) + RemoveUnsafe(b)
    decreases |a|
  {
    if a != [] {
      assert (a + b)[0] == a[0];
      assert (a + b)[1..] == a[1..] + b;
      RemoveUnsafeConcat(a[1..], b);
      var head := if IsUnsafe(a[0]) then [] else [a[0]];
      assert RemoveUnsafe(a + b) == head + (RemoveUnsafe(a[1..]) + RemoveUnsafe(b));
      assert RemoveUnsafe(a) == head + RemoveUnsafe(a[1..]);
    } else {
      assert a + b == b;
    }
  }

  lemma {:induction false} RemoveUnsafeOfSafe(s: string)
    requires Safe(s)
    ensures RemoveUnsafe(s) == s
    decreases |s|
  {
    if s != [] {
      assert s == [s[0]] + s[1..];
      RemoveUnsafeOfSafe(s[1..]);
    }
  }

  /** What `urlsplit` parses: the URL without its leading control
      characters and spaces, and then without any tab, CR or LF. */
  function Sanitize(url: string): (r: string)
    ensures Safe(r)
  {
    RemoveUnsafe(LStrip(url, IsControlOrSpace))
  }

  /** A URL that starts with a printable character and holds no tab, CR or
      LF is parsed as written. */
  lemma SanitizeOfSafe(url: string)
    requires url != [] && !IsControlOrSpace(url[0]) && Safe(url)
    ensures Sanitize(url) == url
  {
    RemoveUnsafeOfSafe(url);
  }

  /** A tab, CR or LF anywhere in a URL makes no difference to what is
      parsed. */
  lemma UnsafeCharIgnored(a: string, c: char, b: string)
    requires IsUnsafe(c)
    ensures Sanitize(a + [c] + b) == Sanitize(a + b)
  {
    if AllSatisfy(a, IsControlOrSpace) {
      assert AllSatisfy(a + [c], IsControlOrSpace);
      assert a + [c] + b == (a + [c]) + b;
      LStripDroppablePrefix(a + [c], b, IsControlOrSpace);
      LStripDroppablePrefix(a, b, IsControlOrSpace);
    } else {
      var x := LStrip(a, IsControlOrSpace);
      assert a + [c] + b == a + ([c] + b);
      LStripStopsInPrefix(a, [c] + b, IsControlOrSpace);
      LStripStopsInPrefix(a, b, IsControlOrSpace);
      RemoveUnsafeConcat(x, [c] + b);
      RemoveUnsafeConcat([c], b);
      assert RemoveUnsafe([c]) == [];
      RemoveUnsafeConcat(x, b);
    }
  }

  /** `urlparse(url)` after `urlsplit`'s clean-up, without parameters,
      percent-decoding or host checks beyond the bracket balance test that
      raises "Invalid IPv6 URL". */
  function ParseUrl(url: string): (r: Result<Url, Fault>)
    ensures r.Ok? ==> '?' !in r.value.path && '#' !in r.value.path && '#' !in r.value.query
  {
    var (scheme, rest) := SplitScheme(Sanitize(url));
    var (netloc, tail) := SplitNetloc(rest);
    if ('[' in netloc) != (']' in netloc) then
      Err(InvalidUrl)
    else
      var (beforeFragment, fragment) := SplitOnce(tail, '#');
      var (path, query) := SplitOnce(beforeFragment, '?');
      Ok(Url(scheme, netloc, path, query, fragment))
  }

  lemma {:induction false} IndexWhereSkips(a: string, b: string, p: char -> bool)
    requires forall i :: 0 <= i < |a| ==> !p(a[i])
    ensures IndexWhere(a + b, p) == |a| + IndexWhere(b, p)
    decreases |a|
  {
    if a == [] {
      assert a + b == b;
    } else {
      assert (a + b)[1..] == a[1..] + b;
      IndexWhereSkips(a[1..], b, p);
    }
  }

  lemma SplitOnceAt(a: string, b: string, c: char)
    requires c !in a
    ensures SplitOnce(a + [c] + b, c) == (a, b)
  {
    IndexWhereSkips(a, [c] + b, x => x == c);
    assert a + [c] + b == a + ([c] + b);
  }

  predicate ValidScheme(scheme: string) {
    scheme != [] && IsAsciiLetter(scheme[0]) && AllSatisfy(scheme, IsSchemeChar)
  }

  /** A host name without delimiters, brackets, or characters `urlsplit`
      deletes. */
  predicate PlainHost(host: string) {
    && Safe(host)
    && forall i :: 0 <= i < |host| ==> !EndsNetloc(host[i]) && host[i] != '[' && host[i] != ']'
  }

  lemma SchemeIsSafe(scheme: string)
    requires ValidScheme(scheme)
    ensures Safe(scheme) && !IsControlOrSpace(scheme[0])
  {
    assert forall i :: 0 <= i < |scheme| ==> IsSchemeChar(scheme[i]);
  }

  lemma SplitSchemeOf(scheme: string, rest: string)
    requires ValidScheme(scheme)
    ensures SplitScheme(scheme + ":" + rest) == (LowerAll(scheme), rest)
  {
    var url := scheme + ":" + rest;
    assert url == scheme + (":" + rest);
    IndexWhereSkips(scheme, ":" + rest, IsColon);
    assert url[..|scheme|] == scheme;
    assert url[|scheme| + 1..] == rest;
  }

  lemma SplitNetlocOf(host: string, tail: string)
    requires PlainHost(host)
    requires tail == [] || EndsNetloc(tail[0])
    ensures SplitNetloc("//" + host + tail) == (host, tail)
  {
    var rest := "//" + host + tail;
    assert rest[2..] == host + tail;
    IndexWhereSkips(host, tail, EndsNetloc);
    assert rest[2..2 + |host|] == host;
    assert rest[2 + |host|..] == tail;
  }

  /** How `scheme://host/path?query` decomposes. */
  lemma ParseHierarchicalUrl(scheme: string, host: string, path: string, query: string)
    requires ValidScheme(scheme) && PlainHost(host)
    requires path == [] || path[0] == '/'
    requires '?' !in path && '#' !in path && '#' !in query
    requires Safe(path) && Safe(query)
    ensures ParseUrl(scheme + "://" + host + path + "?" + query) == Ok(Url(LowerAll(scheme), host, path, query, ""))
  {
    SchemeIsSafe(scheme);
    SanitizeOfSafe(scheme + "://" + host + path + "?" + query);
    var tail := path + "?" + query;
    assert scheme + "://" + host + path + "?" + query == scheme + ":" + ("//" + host + tail);
    SplitSchemeOf(scheme, "//" + host + tail);
    SplitNetlocOf(host, tail);
    assert '[' !in host && ']' !in host;
    assert '#' !in tail;
    SplitOnceAt(path, query, '?');
  }

  /** How `scheme://host/path` without a query decomposes. */
  lemma ParseHierarchicalUrlNoQuery(scheme: string, host: string, path: string)
    requires ValidScheme(scheme) && PlainHost(host)
    requires path == [] || path[0] == '/'
    requires '?' !in path && '#' !in path && Safe(path)
    ensures ParseUrl(scheme + "://" + host + path) == Ok(Url(LowerAll(scheme), host, path, "", ""))
  {
    SchemeIsSafe(scheme);
    SanitizeOfSafe(scheme + "://" + host + path);
    assert scheme + "://" + host + path == scheme + ":" + ("//" + host + path);
    SplitSchemeOf(scheme, "//" + host + path);
    SplitNetlocOf(host, path);
    assert '[' !in host && ']' !in host;
  }

  /** `unquote_plus` restricted to its '+'-to-space step. */
  function Unplus(s: string): string {
    ReplaceChar(s, '+', ' ')
  }

  /** `parse_qsl(query)` with `keep_blank_values=False`: the `&`-separated
      fields that contain `=` and have a non-empty value, in order. */
  function ParseQsl(query: string): (r: seq<(string, string)>)
    ensures forall k :: 0 <= k < |r| ==> r[k].1 != ""
  {
    PairsOf(Split(query, '&'))
  }

  /** The parameters of two `&`-joined queries are those of each, in order. */
  lemma ParseQslJoin(q1: string, q2: string)
    ensures ParseQsl(q1 + "&" + q2) == ParseQsl(q1) + ParseQsl(q2)
  {
    assert q1 + "&" + q2 == q1 + ['&'] + q2;
    SplitJoin(q1, q2, '&');
    PairsOfAppend(Split(q1, '&'), Split(q2, '&'));
  }

  lemma {:induction false} PairsOfAppend(a: seq<string>, b: seq<string>)
    ensures PairsOf(a + b) == PairsOf(a) + PairsOf(b)
    decreases |a|
  {
    if a != [] {
      assert (a + b)[0] == a[0];
      assert (a + b)[1..] == a[1..] + b;
      PairsOfAppend(a[1..], b);
      var (name, value) := SplitOnce(a[0], '=');
      if '=' in a[0] && value != "" {
        var pair := (Unplus(name), Unplus(value));
        assert PairsOf(a + b) == [pair] + (PairsOf(a[1..]) + PairsOf(b));
        assert PairsOf(a) == [pair] + PairsOf(a[1..]);
      } else {
        assert PairsOf(a + b) == PairsOf(a[1..]) + PairsOf(b);
      }
    } else {
      assert a + b == b;
    }
  }

  /** The fields of a query that become parameters: those holding `=` with
      a non-empty value, each as its unplussed name and value. */
  function PairsOf(fields: seq<string>): (r: seq<(string, string)>)
    ensures forall k :: 0 <= k < |r| ==> r[k].1 != ""
  {
    if fields == [] then []
    else
      var rest := PairsOf(fields[1..]);
      var (name, value) := SplitOnce(fields[0], '=');
      if '=' in fields[0] && value != "" then [(Unplus(name), Unplus(value))] + rest
      else rest
  }

  /** An empty query has no parameters. */
  lemma EmptyQuery()
    ensures ParseQsl("") == []
  {
    assert Split("", '&') == [""];
    assert PairsOf([""][1..]) == [];
  }

  /** A single field with a non-empty value parses to that one pair. */
  lemma SingleField(field: string)
    requires '&' !in field && '=' in field && SplitOnce(field, '=').1 != ""
    ensures ParseQsl(field) == [(Unplus(SplitOnce(field, '=').0), Unplus(SplitOnce(field, '=').1))]
  {
    SplitNoSep(field, '&');
    assert [field][1..] == [];
    assert PairsOf([field][1..]) == [];
    assert PairsOf([field]) == [(Unplus(SplitOnce(field, '=').0), Unplus(SplitOnce(field, '=').1))] + [];
  }

  /** A single field without `=`, or with an empty value, gives no pair. */
  lemma DroppedField(field: string)
    requires '&' !in field && ('=' !in field || SplitOnce(field, '=').1 == "")
    ensures ParseQsl(field) == []
  {
    SplitNoSep(field, '&');
    assert [field][1..] == [];
    assert PairsOf([field][1..]) == [];
  }

  /** `parse_qs(query).get(key)[0]`: the first value recorded for `key`. */
  function FirstValue(pairs: seq<(string, string)>, key: string): (r: Option<string>)
    ensures r.Some? ==> (key, r.value) in pairs
    ensures r.Some? ==> exists k :: 0 <= k < |pairs| && pairs[k] == (key, r.value) && forall j :: 0 <= j < k ==> pairs[j].0 != key
    ensures r.None? <==> forall k :: 0 <= k < |pairs| ==> pairs[k].0 != key
  {
    if pairs == [] then None
    else if pairs[0].0 == key then Some(pairs[0].1)
    else FirstValue(pairs[1..], key)
  }
}
