/** The simulated Sales Navigator scraper: derives a display name and a
    company from a profile URL, and normalises one input row into the
    five-field profile the later stages consume. */
module Scraper {
  import opened Common
  import opened Strings
  import opened Urls

  datatype ScraperConfig = ScraperConfig(requestTimeout: int, rateLimitSeconds: real)

  /** The configuration the scraper's constructor builds from the `scraper`
      settings section. */
  function ConfigFrom(settings: ScraperSettings): (c: ScraperConfig)
    ensures settings.requestTimeout.None? ==> c.requestTimeout == 20
    ensures settings.rateLimitSeconds.None? ==> c.rateLimitSeconds == 1.5
    ensures settings.requestTimeout.Some? ==> c.requestTimeout == settings.requestTimeout.value
    ensures settings.rateLimitSeconds.Some? ==> c.rateLimitSeconds == settings.rateLimitSeconds.value
  {
    ScraperConfig(GetOr(settings.requestTimeout, 20), GetOr(settings.rateLimitSeconds, 1.5))
  }

  /** The enriched profile: exactly these five fields. */
  datatype Profile = Profile(
    profileUrl: string,
    fullName: string,
    headline: Option<string>,
    company: Option<string>,
    location: Option<string>)

  const MemberFallback: string := "LinkedIn Member"

  predicate IsSlash(c: char) { c == '/' }

  /** The name a single path segment stands for. */
  function NameOfSegment(identifier: string): (r: string)
    ensures r != []
    ensures IsDigits(identifier) ==> r == "Lead " + identifier
    ensures !IsDigits(identifier) && identifier != [] ==> r == Title(ReplaceChar(identifier, '-', ' '))
    ensures identifier == [] ==> r == MemberFallback
  {
    if IsDigits(identifier) then "Lead " + identifier
    else
      var slug := Title(ReplaceChar(identifier, '-', ' '));
      if slug != "" then slug else MemberFallback
  }

  /** The name derived from a URL path: its last '/'-separated piece once
      leading and trailing slashes are stripped. */
  function NameFromPath(path: string): (r: string)
    ensures r != []
  {
    NameOfSegment(Last(Split(StripBy(path, IsSlash), '/')))
  }

  /** `_derive_name_from_url`; a URL that fails to parse gives the fallback. */
  function DeriveNameFromUrl(profileUrl: string): (r: string)
    ensures r != []
    ensures ParseUrl(profileUrl).Err? ==> r == MemberFallback
    ensures ParseUrl(profileUrl).Ok? ==> r == NameFromPath(ParseUrl(profileUrl).value.path)
  {
    match ParseUrl(profileUrl)
    case Err(_) => MemberFallback
    case Ok(u) => NameFromPath(u.path)
  }

  /** Only the last path segment decides the name: whatever comes before
      it, and however many slashes follow it. */
  lemma NameFromLastSegment(prefix: string, segment: string, trail: string)
    requires segment != [] && '/' !in segment
    requires AllSatisfy(trail, IsSlash)
    ensures NameFromPath(prefix + "/" + segment + trail) == NameOfSegment(segment)
  {
    LastPathSegment(prefix, segment, trail);
  }

  lemma LastPathSegment(prefix: string, segment: string, trail: string)
    requires segment != [] && '/' !in segment
    requires AllSatisfy(trail, IsSlash)
    ensures Last(Split(StripBy(prefix + "/" + segment + trail, IsSlash), '/')) == segment
  {
    StripAroundSegment(prefix, segment, trail);
    StrippedSlashPrefix(prefix);
    SplitLastAfterFinalSep(LStrip(prefix + "/", IsSlash), segment, '/');
  }

  lemma StripAroundSegment(prefix: string, segment: string, trail: string)
    requires segment != [] && '/' !in segment
    requires AllSatisfy(trail, IsSlash)
    ensures StripBy(prefix + "/" + segment + trail, IsSlash) == LStrip(prefix + "/", IsSlash) + segment
  {
    LStripBeforeSegment(prefix, segment, trail);
    var x := LStrip(prefix + "/", IsSlash);
    assert (x + segment)[|x + segment| - 1] == segment[|segment| - 1];
    RStripDropsTail(x + segment, trail, IsSlash);
  }

  lemma LStripBeforeSegment(prefix: string, segment: string, trail: string)
    requires segment != [] && '/' !in segment
    ensures LStrip(prefix + "/" + segment + trail, IsSlash) == LStrip(prefix + "/", IsSlash) + segment + trail
  {
    var a := prefix + "/";
    var b := segment + trail;
    assert b != [] && !IsSlash(b[0]) by { assert b[0] == segment[0]; }
    LStripConcat(a, b, IsSlash);
    assert prefix + "/" + segment + trail == a + b;
  }

  lemma StrippedSlashPrefix(prefix: string)
    ensures var x := LStrip(prefix + "/", IsSlash); x == [] || x[|x| - 1] == '/'
  {
    if LStrip(prefix + "/", IsSlash) != [] { LStripKeepsLast(prefix + "/", IsSlash); }
  }

  /** `_derive_company_from_query`: the first value of the first of the
      query keys `company`, `org`, `cname` that has one; otherwise, and for
      a URL that fails to parse, the fallback unchanged. */
  function DeriveCompanyFromQuery(profileUrl: string, fallback: Option<string>): (r: Option<string>)
    ensures ParseUrl(profileUrl).Err? ==> r == fallback
    ensures r != fallback ==>
              && ParseUrl(profileUrl).Ok? && r.Some?
              && exists i :: 0 <= i < |CompanyKeys| && (CompanyKeys[i], r.value) in ParseQsl(ParseUrl(profileUrl).value.query)
  {
    match ParseUrl(profileUrl)
    case Err(_) => fallback
    case Ok(u) =>
      var pairs := ParseQsl(u.query);
      FirstKeyValue(pairs, CompanyKeys, fallback)
  }

  const CompanyKeys: seq<string> := ["company", "org", "cname"]

  /** The early-return search over the keys: the value of the first key
      that has one, or the fallback. */
  function FirstKeyValue(pairs: seq<(string, string)>, keys: seq<string>, fallback: Option<string>): (r: Option<string>)
    ensures r == fallback || (r.Some? && exists i :: 0 <= i < |keys| && r == FirstValue(pairs, keys[i]))
    ensures r != fallback ==> exists i :: 0 <= i < |keys| && (keys[i], r.value) in pairs
    decreases |keys|
  {
    if keys == [] then fallback
    else
      match FirstValue(pairs, keys[0])
      case Some(v) => Some(v)
      case None =>
        var r := FirstKeyValue(pairs, keys[1..], fallback);
        assert forall i :: 0 <= i < |keys| - 1 ==> keys[1..][i] == keys[i + 1];
        r
  }

  /** When no key has a value the search returns the fallback. */
  lemma {:induction false} FirstKeyValueFallback(pairs: seq<(string, string)>, keys: seq<string>, fallback: Option<string>)
    requires forall i :: 0 <= i < |keys| ==> FirstValue(pairs, keys[i]).None?
    ensures FirstKeyValue(pairs, keys, fallback) == fallback
    decreases |keys|
  {
    if keys != [] {
      assert forall i :: 0 <= i < |keys| - 1 ==> keys[1..][i] == keys[i + 1];
      FirstKeyValueFallback(pairs, keys[1..], fallback);
    }
  }

  /** Otherwise it returns the value of the earliest key that has one, and
      the keys after it are never consulted. */
  lemma {:induction false} FirstKeyValueFirstHit(pairs: seq<(string, string)>, keys: seq<string>, fallback: Option<string>, i: nat)
    requires i < |keys| && FirstValue(pairs, keys[i]).Some?
    requires forall j :: 0 <= j < i ==> FirstValue(pairs, keys[j]).None?
    ensures FirstKeyValue(pairs, keys, fallback) == FirstValue(pairs, keys[i])
    decreases i
  {
    if i > 0 {
      assert forall j :: 0 <= j < i - 1 ==> keys[1..][j] == keys[j + 1];
      FirstKeyValueFirstHit(pairs, keys[1..], fallback, i - 1);
    }
  }

  /** For `scheme://host/.../segment` the name comes from the last segment
      alone: `Lead <id>` for digits, the title-cased slug otherwise. */
  lemma DeriveNameOfLeadUrl(scheme: string, host: string, prefix: string, segment: string)
    requires ValidScheme(scheme) && PlainHost(host)
    requires prefix == [] || prefix[0] == '/'
    requires '?' !in prefix && '#' !in prefix && Safe(prefix)
    requires segment != [] && '/' !in segment && '?' !in segment && '#' !in segment && Safe(segment)
    ensures DeriveNameFromUrl(scheme + "://" + host + prefix + "/" + segment) == NameOfSegment(segment)
  {
    var path := prefix + "/" + segment;
    assert path[0] == '/' by {
      if prefix == [] { assert path == "/" + segment; }
    }
    assert '?' !in path && '#' !in path && Safe(path);
    assert scheme + "://" + host + prefix + "/" + segment == scheme + "://" + host + path;
    ParseHierarchicalUrlNoQuery(scheme, host, path);
    assert path + "" == path;
    NameFromLastSegment(prefix, segment, "");
  }

  /** A URL without a path falls back to the generic member name. */
  lemma DeriveNameWithoutPath(scheme: string, host: string)
    requires ValidScheme(scheme) && PlainHost(host)
    ensures DeriveNameFromUrl(scheme + "://" + host) == MemberFallback
  {
    assert scheme + "://" + host + "" == scheme + "://" + host;
    ParseHierarchicalUrlNoQuery(scheme, host, "");
    NameFromEmptyPath();
  }

  lemma NameFromEmptyPath()
    ensures NameFromPath("") == MemberFallback
  {
    assert StripBy("", IsSlash) == "";
    assert Split("", '/') == [""];
  }

  /** A `company` query parameter wins over any fallback. */
  lemma DeriveCompanyFromCompanyKey(scheme: string, host: string, path: string, value: string, fallback: Option<string>)
    requires ValidScheme(scheme) && PlainHost(host)
    requires path == [] || path[0] == '/'
    requires '?' !in path && '#' !in path && Safe(path)
    requires value != "" && '&' !in value && '#' !in value && Safe(value)
    ensures DeriveCompanyFromQuery(scheme + "://" + host + path + "?company=" + value, fallback) == Some(Unplus(value))
  {
    var query := "company=" + value;
    assert scheme + "://" + host + path + "?company=" + value == scheme + "://" + host + path + "?" + query;
    assert '#' !in query && '&' !in query && Safe(query);
    ParseHierarchicalUrl(scheme, host, path, query);
    CompanyQuery(value);
  }

  lemma CompanyQuery(value: string)
    requires value != "" && '&' !in value
    ensures ParseQsl("company=" + value) == [("company", Unplus(value))]
  {
    var query := "company=" + value;
    assert '&' !in query;
    SplitNoSep(query, '&');
    assert query == "company" + ['='] + value;
    SplitOnceAt("company", value, '=');
    assert Unplus("company") == "company";
    SingleField(query);
  }

  /** A `company` field with an empty value is dropped by `parse_qsl`, so an
      `org` field after it supplies the company. */
  lemma EmptyCompanyPassedOver(value: string, fallback: Option<string>)
    requires value != "" && '&' !in value
    ensures FirstKeyValue(ParseQsl("company=&org=" + value), CompanyKeys, fallback) == Some(Unplus(value))
  {
    EmptyCompanyQuery(value);
    var pairs := [("org", Unplus(value))];
    assert FirstValue(pairs, "company") == None;
    assert FirstValue(pairs, "org") == Some(Unplus(value));
  }

  /** The pairs of `company=&org=value`: only the `org` pair. */
  lemma EmptyCompanyQuery(value: string)
    requires value != "" && '&' !in value
    ensures ParseQsl("company=&org=" + value) == [("org", Unplus(value))]
  {
    assert "company=&org=" + value == "company=" + "&" + ("org=" + value);
    ParseQslJoin("company=", "org=" + value);
    EmptyCompanyField();
    OrgQuery(value);
  }

  /** A lone `company=` field gives no pair. */
  lemma EmptyCompanyField()
    ensures ParseQsl("company=") == []
  {
    assert "company=" == "company" + ['='] + "";
    SplitOnceAt("company", "", '=');
    DroppedField("company=");
  }

  /** A lone `org=value` field gives its one pair. */
  lemma OrgQuery(value: string)
    requires value != "" && '&' !in value
    ensures ParseQsl("org=" + value) == [("org", Unplus(value))]
  {
    var query := "org=" + value;
    assert '&' !in query;
    assert query == "org" + ['='] + value;
    SplitOnceAt("org", value, '=');
    assert Unplus("org") == "org";
    SingleField(query);
  }

  /** Without a query the fallback is returned unchanged. */
  lemma DeriveCompanyWithoutQuery(scheme: string, host: string, path: string, fallback: Option<string>)
    requires ValidScheme(scheme) && PlainHost(host)
    requires path == [] || path[0] == '/'
    requires '?' !in path && '#' !in path && Safe(path)
    ensures DeriveCompanyFromQuery(scheme + "://" + host + path, fallback) == fallback
  {
    ParseHierarchicalUrlNoQuery(scheme, host, path);
    EmptyQuery();
    NoPairs(CompanyKeys, fallback);
  }

  lemma {:induction false} NoPairs(keys: seq<string>, fallback: Option<string>)
    ensures FirstKeyValue([], keys, fallback) == fallback
    decreases |keys|
  {
    if keys != [] { NoPairs(keys[1..], fallback); }
  }

  /** A tab, CR or LF anywhere in the URL changes neither the derived name
      nor the derived company, since `urlsplit` deletes them first. */
  lemma UnsafeCharsIgnoredInUrl(a: string, c: char, b: string, fallback: Option<string>)
    requires IsUnsafe(c)
    ensures DeriveNameFromUrl(a + [c] + b) == DeriveNameFromUrl(a + b)
    ensures DeriveCompanyFromQuery(a + [c] + b, fallback) == DeriveCompanyFromQuery(a + b, fallback)
  {
    UnsafeCharIgnored(a, c, b);
  }

  /** A `company` parameter after fields that hold no `company` parameter
      still wins over `org` and `cname` among them, and over the fallback. */
  lemma DeriveCompanyAfterOtherFields(scheme: string, host: string, path: string, fields: string, value: string,
                                      fallback: Option<string>)
    requires ValidScheme(scheme) && PlainHost(host)
    requires path == [] || path[0] == '/'
    requires '?' !in path && '#' !in path && Safe(path)
    requires '#' !in fields && Safe(fields)
    requires forall k :: 0 <= k < |ParseQsl(fields)| ==> ParseQsl(fields)[k].0 != "company"
    requires value != "" && '&' !in value && '#' !in value && Safe(value)
    ensures DeriveCompanyFromQuery(scheme + "://" + host + path + "?" + fields + "&company=" + value, fallback)
         == Some(Unplus(value))
  {
    var query := fields + "&" + ("company=" + value);
    assert scheme + "://" + host + path + "?" + fields + "&company=" + value == scheme + "://" + host + path + "?" + query;
    assert '#' !in query && Safe(query);
    ParseHierarchicalUrl(scheme, host, path, query);
    ParseQslJoin(fields, "company=" + value);
    CompanyQuery(value);
    FirstValueAfter(ParseQsl(fields), [("company", Unplus(value))], "company");
  }

  /** Pairs that lack a key do not affect its first value. */
  lemma {:induction false} FirstValueAfter(a: seq<(string, string)>, b: seq<(string, string)>, key: string)
    requires forall k :: 0 <= k < |a| ==> a[k].0 != key
    ensures FirstValue(a + b, key) == FirstValue(b, key)
    decreases |a|
  {
    if a == [] {
      assert a + b == b;
    } else {
      assert (a + b)[0] == a[0];
      assert (a + b)[1..] == a[1..] + b;
      assert forall k :: 0 <= k < |a| - 1 ==> a[1..][k] == a[k + 1];
      FirstValueAfter(a[1..], b, key);
    }
  }

  /** A hyphenated slug becomes a title-cased name. */
  lemma HyphenatedSlugName()
    ensures NameOfSegment("jane-doe") == "Jane Doe"
  {
    assert !IsAsciiDigit('j');
    SpacedSlug();
    TitledSlug();
  }

  /** The hyphen of the slug becomes a space. */
  lemma SpacedSlug()
    ensures ReplaceChar("jane-doe", '-', ' ') == "jane doe"
  {
  }

  /** Each word of the spaced slug is capitalised. */
  lemma TitledSlug()
    ensures Title("jane doe") == "Jane Doe"
  {
  }

  /** The scraper object: only its configuration, which it never changes. */
  datatype NavigatorScraper = NavigatorScraper(config: ScraperConfig) {

    /** `enrich_profile`: fails for a blank URL, then sleeps for the rate
        limit (which fails for a negative duration), then builds the
        profile from trimmed row cells and the URL-derived fallbacks. */
    function EnrichProfile(row: Row, cookies: CookieJar): (r: Result<Profile, Fault>)
      ensures Strip(Field(row, "profile_url")) == "" ==> r == Err(MissingProfileUrl)
      ensures Strip(Field(row, "profile_url")) != "" && config.rateLimitSeconds < 0.0 ==> r == Err(NegativeSleep)
      ensures r.Ok? <==> Strip(Field(row, "profile_url")) != "" && config.rateLimitSeconds >= 0.0
      ensures r.Ok? ==> r.value.profileUrl == Strip(Field(row, "profile_url")) && r.value.profileUrl != ""
      ensures r.Ok? ==> r.value.fullName != ""
      ensures r.Ok? && Strip(Field(row, "full_name")) != "" ==> r.value.fullName == Strip(Field(row, "full_name"))
      ensures r.Ok? && Strip(Field(row, "full_name")) == "" ==> r.value.fullName == DeriveNameFromUrl(r.value.profileUrl)
      ensures r.Ok? ==> r.value.headline == NoneIfEmpty(Strip(Field(row, "headline")))
      ensures r.Ok? ==> r.value.location == NoneIfEmpty(Strip(Field(row, "location")))
      ensures r.Ok? ==> r.value.company == DeriveCompanyFromQuery(r.value.profileUrl, NoneIfEmpty(Strip(Field(row, "company"))))
    {
      var profileUrl := Strip(Field(row, "profile_url"));
      if profileUrl == "" then Err(MissingProfileUrl)
      else if config.rateLimitSeconds < 0.0 then Err(NegativeSleep)
      else
        var csvName := Strip(Field(row, "full_name"));
        var fullName := if csvName != "" then csvName else DeriveNameFromUrl(profileUrl);
        var headline := NoneIfEmpty(Strip(Field(row, "headline")));
        var companyCsv := NoneIfEmpty(Strip(Field(row, "company")));
        var company := DeriveCompanyFromQuery(profileUrl, companyCsv);
        var location := NoneIfEmpty(Strip(Field(row, "location")));
        Ok(Profile(profileUrl, fullName, headline, company, location))
    }
  }
}
