/** The orchestrator: loads the input rows, keeps the first `--limit` of
    them, and runs every row with a profile URL through enrichment, the
    connection request and the follow-up message, recording one result per
    such row, or an error record when a stage raises. */
module Pipeline {
  import opened Common
  import opened Strings
  import opened Template
  import Urls
  import Scraper
  import Connections
  import Messaging

  /** "Hi {first_name}, I came across your profile and would love to connect." */
  const DefaultTemplate: string := GreetingHead + "{first_name}" + GreetingTail

  const GreetingHead: string := "Hi "
  const GreetingTail: string := ", I came" + " across" + " your" + " profile" + " and" + " would" + " love" + " to" + " connect."

  /** The name used when a profile has none. */
  const Stranger: string := "there"

  /** The message sent when the template cannot be formatted. */
  function FallbackMessage(firstName: string): (r: string)
    ensures |r| > 3 + |firstName| && r[..3 + |firstName|] == GreetingHead + firstName
  {
    GreetingHead + firstName + ", I'd love to connect with you on LinkedIn."
  }

  /** The names of the keyword arguments the template is formatted with. */
  const ContextKeys: set<string> := {"full_name", "first_name", "headline", "company", "location"}

  /** The keyword arguments the template is formatted with. */
  function MessageContext(fullName: string, firstName: string, profile: Scraper.Profile): (c: map<string, string>)
    ensures c.Keys == ContextKeys
    ensures c["full_name"] == fullName && c["first_name"] == firstName
    ensures c["headline"] == (if profile.headline.Some? then profile.headline.value else "")
    ensures c["company"] == (if profile.company.Some? then profile.company.value else "")
    ensures c["location"] == (if profile.location.Some? then profile.location.value else "")
  {
    map["full_name" := fullName,
        "first_name" := firstName,
        "headline" := OrEmpty(profile.headline),
        "company" := OrEmpty(profile.company),
        "location" := OrEmpty(profile.location)]
  }

  lemma StrangerIsNotBlank()
    ensures !AllSatisfy(Stranger, IsSpace)
  {
    assert !IsSpace(Stranger[0]);
  }

  /** `build_message`: the first word of the name (or of "there") fills the
      template; the call raises when the name is whitespace only, and a
      template that cannot be formatted gives the fixed fallback sentence. */
  function BuildMessage(template: string, profile: Scraper.Profile): (r: Result<string, Fault>)
    ensures r.Err? <==> profile.fullName != "" && AllSatisfy(profile.fullName, IsSpace)
    ensures r.Err? ==> r.error == NoFirstName
  {
    var fullName := GreetingName(profile);
    StrangerIsNotBlank();
    WordsEmptyIffBlank(fullName);
    var words := Words(fullName);
    if words == [] then Err(NoFirstName)
    else
      var firstName := words[0];
      match Format(template, MessageContext(fullName, firstName, profile))
      case Some(text) => Ok(Strip(text))
      case None => Ok(FallbackMessage(firstName))
  }

  /** The name a message greets: the profile's name, or "there" without one. */
  function GreetingName(profile: Scraper.Profile): (r: string)
    ensures r != ""
    ensures profile.fullName != "" ==> r == profile.fullName
    ensures profile.fullName == "" ==> r == "there"
  {
    if profile.fullName != "" then profile.fullName else Stranger
  }

  /** The first name used for a profile: the first word of its name, or
      "there" for a profile without one. */
  function FirstName(profile: Scraper.Profile): (r: string)
    requires !(profile.fullName != "" && AllSatisfy(profile.fullName, IsSpace))
    ensures IsWord(r)
  {
    var fullName := GreetingName(profile);
    StrangerIsNotBlank();
    WordsEmptyIffBlank(fullName);
    Words(fullName)[0]
  }

  /** A profile without a name is greeted as "there". */
  lemma NamelessFirstName(profile: Scraper.Profile)
    requires profile.fullName == ""
    ensures FirstName(profile) == "there"
  {
    StrangerIsNotBlank();
    FirstWordOfUnpadded(Stranger);
    assert TakeWord(Stranger) == "there";
  }

  /** The first name is the first word of the name once leading whitespace is
      skipped. */
  lemma FirstNameAfterSpaces(profile: Scraper.Profile)
    requires profile.fullName != "" && !AllSatisfy(profile.fullName, IsSpace)
    ensures FirstName(profile) == TakeWord(LStrip(profile.fullName, IsSpace))
  {
    WordsEmptyIffBlank(profile.fullName);
    FirstWordAfterSpaces(profile.fullName);
  }

  /** The name derived from the slug `-jane` is " Jane", greeted as "Jane". */
  lemma LeadingSpaceFirstName(profile: Scraper.Profile)
    requires profile.fullName == " Jane"
    ensures !AllSatisfy(profile.fullName, IsSpace) && FirstName(profile) == "Jane"
  {
    assert !IsSpace(profile.fullName[1]);
    FirstNameAfterSpaces(profile);
    assert LStrip(" Jane", IsSpace) == "Jane";
    assert TakeWord("Jane") == "Jane";
  }

  /** A template that cannot be formatted gives the fixed sentence. */
  lemma BuildMessageFallback(template: string, profile: Scraper.Profile)
    requires !(profile.fullName != "" && AllSatisfy(profile.fullName, IsSpace))
    requires Parse(template).None?
    ensures BuildMessage(template, profile) == Ok(FallbackMessage(FirstName(profile)))
  {
  }

  /** A template that formats is sent as formatted, stripped. */
  lemma BuildMessageFormatted(template: string, profile: Scraper.Profile)
    requires !(profile.fullName != "" && AllSatisfy(profile.fullName, IsSpace))
    requires Format(template, MessageContext(GreetingName(profile), FirstName(profile), profile)).Some?
    ensures BuildMessage(template, profile)
         == Ok(Strip(Format(template, MessageContext(GreetingName(profile), FirstName(profile), profile)).value))
  {
  }

  /** A template with a field that is not one of the five keyword arguments
      (an unknown name, a number or an empty field) gives the fixed
      sentence: the lookup raises and the handler catches it. */
  lemma BuildMessageUnknownField(template: string, profile: Scraper.Profile, ps: seq<Piece>, i: nat)
    requires !(profile.fullName != "" && AllSatisfy(profile.fullName, IsSpace))
    requires Parse(template) == Some(ps)
    requires i < |ps| && ps[i].Placeholder?
    requires !IsKeywordField(ps[i].name) || ps[i].name !in ContextKeys
    ensures BuildMessage(template, profile) == Ok(FallbackMessage(FirstName(profile)))
  {
    var context := MessageContext(GreetingName(profile), FirstName(profile), profile);
    assert !Resolves(ps[i].name, context);
  }

  /** A template without braces is sent as written, stripped. */
  lemma BuildMessagePlain(template: string, profile: Scraper.Profile)
    requires !(profile.fullName != "" && AllSatisfy(profile.fullName, IsSpace))
    requires '{' !in template && '}' !in template
    ensures BuildMessage(template, profile) == Ok(Strip(template))
  {
    var fullName := GreetingName(profile);
    StrangerIsNotBlank();
    WordsEmptyIffBlank(fullName);
    FormatPlainText(template, MessageContext(fullName, Words(fullName)[0], profile));
  }

  /** The first name of a name that begins with a non-space character is
      its leading run of non-space characters. */
  lemma FirstNameOfUnpadded(profile: Scraper.Profile)
    requires profile.fullName != [] && !IsSpace(profile.fullName[0])
    ensures !AllSatisfy(profile.fullName, IsSpace)
    ensures FirstName(profile) == TakeWord(profile.fullName)
  {
    FirstWordOfUnpadded(profile.fullName);
  }

  lemma DefaultTemplateParts()
    ensures DefaultTemplate == GreetingHead + ("{" + "first_name" + "}") + GreetingTail
  {
    assert "{first_name}" == "{" + "first_name" + "}";
  }

  lemma GreetingHeadPlain()
    ensures '{' !in GreetingHead && '}' !in GreetingHead
  {
  }

  lemma GreetingTailPlain()
    ensures '{' !in GreetingTail && '}' !in GreetingTail
  {
    assert '{' !in ", I came" && '}' !in ", I came";
    assert '{' !in " across" && '}' !in " across";
    assert '{' !in " your" && '}' !in " your";
    assert '{' !in " profile" && '}' !in " profile";
    assert '{' !in " and" && '}' !in " and";
    assert '{' !in " would" && '}' !in " would";
    assert '{' !in " love" && '}' !in " love";
    assert '{' !in " to" && '}' !in " to";
    assert '{' !in " connect." && '}' !in " connect.";
  }

  /** The default template greets the profile by its first name. */
  lemma BuildMessageDefault(profile: Scraper.Profile)
    requires !(profile.fullName != "" && AllSatisfy(profile.fullName, IsSpace))
    ensures BuildMessage(DefaultTemplate, profile) == Ok(GreetingHead + FirstName(profile) + GreetingTail)
  {
    var fullName := GreetingName(profile);
    StrangerIsNotBlank();
    WordsEmptyIffBlank(fullName);
    var firstName := Words(fullName)[0];
    FormatDefault(MessageContext(fullName, firstName, profile), firstName);
    UnpaddedGreeting(firstName);
  }

  lemma FormatDefault(context: map<string, string>, firstName: string)
    requires "first_name" in context && context["first_name"] == firstName
    ensures Format(DefaultTemplate, context) == Some(GreetingHead + firstName + GreetingTail)
  {
    DefaultTemplateParts();
    GreetingHeadPlain();
    GreetingTailPlain();
    assert !IsDigits("first_name") by { assert !IsAsciiDigit("first_name"[0]); }
    assert '{' !in "first_name" && '}' !in "first_name";
    FormatOneField(GreetingHead, "first_name", GreetingTail, context);
  }

  /** A greeting starts with 'H' and ends with '.', so stripping keeps it. */
  lemma UnpaddedGreeting(firstName: string)
    ensures Strip(GreetingHead + firstName + GreetingTail) == GreetingHead + firstName + GreetingTail
  {
    var s := GreetingHead + firstName + GreetingTail;
    assert s[0] == 'H';
    assert s[|s| - 1] == '.';
    StripUnpadded(s);
  }

  /** `--limit n`: Python's `rows[:n]`, where a negative `n` drops rows from
      the end; no limit keeps every row. */
  function ApplyLimit(rows: seq<Row>, limit: Option<int>): (r: seq<Row>)
    ensures |r| <= |rows| && r == rows[..|r|]
    ensures limit.None? ==> r == rows
    ensures limit.Some? && limit.value >= 0 ==> |r| == (if limit.value < |rows| then limit.value else |rows|)
    ensures limit.Some? && limit.value < 0 ==> |r| == (if |rows| + limit.value > 0 then |rows| + limit.value else 0)
  {
    match limit
    case None => rows
    case Some(n) =>
      var end := if n >= 0 then n else |rows| + n;
      if end <= 0 then [] else if end < |rows| then rows[..end] else rows
  }

  /** A row every one of whose cells is empty once stripped. */
  predicate IsBlankRow(row: Row) {
    forall k :: k in row ==> Strip(row[k]) == ""
  }

  /** The rows that are not blank, in their original order. */
  function NonBlankRows(rows: seq<Row>): (r: seq<Row>)
    ensures |r| <= |rows|
    ensures forall i :: 0 <= i < |r| ==> !IsBlankRow(r[i]) && r[i] in rows
    ensures forall i :: 0 <= i < |rows| && !IsBlankRow(rows[i]) ==> rows[i] in r
    decreases |rows|
  {
    if rows == [] then []
    else
      var prior := NonBlankRows(rows[..|rows| - 1]);
      assert forall i :: 0 <= i < |rows| - 1 ==> rows[i] == rows[..|rows| - 1][i];
      if IsBlankRow(rows[|rows| - 1]) then prior else prior + [rows[|rows| - 1]]
  }

  /** Filtering twice keeps the same rows. */
  lemma {:induction false} NonBlankRowsIdempotent(rows: seq<Row>)
    ensures NonBlankRows(NonBlankRows(rows)) == NonBlankRows(rows)
    decreases |rows|
  {
    if rows != [] {
      var init := rows[..|rows| - 1];
      NonBlankRowsIdempotent(init);
      var prior := NonBlankRows(init);
      if !IsBlankRow(rows[|rows| - 1]) {
        var r := prior + [rows[|rows| - 1]];
        assert r[..|r| - 1] == prior;
      }
    }
  }

  /** The filter works row by row: filtering joined rows joins the filtered
      rows, so the kept rows keep their order and multiplicity. */
  lemma {:induction false} NonBlankRowsAppend(a: seq<Row>, b: seq<Row>)
    ensures NonBlankRows(a + b) == NonBlankRows(a) + NonBlankRows(b)
    decreases |b|
  {
    if b == [] {
      assert a + b == a;
    } else {
      var init, last := b[..|b| - 1], b[|b| - 1];
      assert b == init + [last];
      assert a + b == (a + init) + [last];
      NonBlankRowsAppend(a, init);
      NonBlankRowsSnoc(a + init, last);
      NonBlankRowsSnoc(init, last);
    }
  }

  /** Appending one row keeps it after the kept earlier rows, if it is not blank. */
  lemma NonBlankRowsSnoc(rows: seq<Row>, last: Row)
    ensures NonBlankRows(rows + [last]) == NonBlankRows(rows) + if IsBlankRow(last) then [] else [last]
  {
    assert (rows + [last])[..|rows|] == rows;
  }

  /** A single row is kept exactly when it is not blank. */
  lemma NonBlankRowsSingle(row: Row)
    ensures NonBlankRows([row]) == if IsBlankRow(row) then [] else [row]
  {
    assert [row][..0] == [];
  }

  /** `load_input_profiles` on the rows the CSV reader yields: blank lines
      are skipped. */
  method LoadProfiles(reader: seq<Row>) returns (profiles: seq<Row>)
    ensures profiles == NonBlankRows(reader)
  {
    profiles := [];
    var i := 0;
    while i < |reader|
      invariant 0 <= i <= |reader|
      invariant profiles == NonBlankRows(reader[..i])
    {
      assert reader[..i + 1][..i] == reader[..i];
      var row := reader[i];
      var blank := RowIsBlank(row);
      if !blank {
        profiles := profiles + [row];
      }
      i := i + 1;
    }
    assert reader[..|reader|] == reader;
  }

  /** The blank-line test, cell by cell. */
  method RowIsBlank(row: Row) returns (blank: bool)
    ensures blank == IsBlankRow(row)
  {
    blank := true;
    var keys := row.Keys;
    while keys != {}
      invariant keys <= row.Keys
      invariant blank <==> forall k :: k in row && k !in keys ==> Strip(row[k]) == ""
      decreases |keys|
    {
      var k :| k in keys;
      if Strip(row[k]) != "" {
        blank := false;
      }
      keys := keys - {k};
    }
  }

  /** One output record. */
  datatype Record = Record(
    profileUrl: string,
    fullName: Option<string>,
    headline: Option<string>,
    company: Option<string>,
    location: Option<string>,
    connectionStatus: string,
    messageStatus: string,
    timestamp: string)

  /** The record written when a stage raises: the row's own cells, empty
      ones absent, and both statuses "Error". */
  function ErrorRecord(row: Row, profileUrl: string, timestamp: string): (r: Record)
    ensures r.profileUrl == profileUrl && r.timestamp == timestamp
    ensures r.connectionStatus == ErrorStatus && r.messageStatus == ErrorStatus
    ensures r.fullName.Some? <==> "full_name" in row && row["full_name"] != ""
    ensures r.fullName.Some? ==> r.fullName.value == row["full_name"]
    ensures r.headline.Some? <==> "headline" in row && row["headline"] != ""
    ensures r.headline.Some? ==> r.headline.value == row["headline"]
    ensures r.company.Some? <==> "company" in row && row["company"] != ""
    ensures r.company.Some? ==> r.company.value == row["company"]
    ensures r.location.Some? <==> "location" in row && row["location"] != ""
    ensures r.location.Some? ==> r.location.value == row["location"]
  {
    Record(profileUrl,
           NoneIfEmpty(Field(row, "full_name")),
           NoneIfEmpty(Field(row, "headline")),
           NoneIfEmpty(Field(row, "company")),
           NoneIfEmpty(Field(row, "location")),
           ErrorStatus, ErrorStatus, timestamp)
  }

  /** The three stages of a run and the default message template, all
      fixed once the settings are read. */
  datatype Stages = Stages(
    scraper: Scraper.NavigatorScraper,
    senderConfig: Connections.AutomationConfig,
    dryRun: bool,
    dispatcher: Messaging.MessageDispatcher,
    defaultTemplate: string)

  function StagesFrom(settings: Settings, dryRun: bool): (st: Stages)
    ensures st.dryRun == dryRun && st.dispatcher.dryRun == dryRun
    ensures settings.automation.messageTemplate.None? ==> st.defaultTemplate == DefaultTemplate
    ensures settings.automation.messageTemplate.Some? ==> st.defaultTemplate == settings.automation.messageTemplate.value
  {
    Stages(Scraper.NavigatorScraper(Scraper.ConfigFrom(settings.scraper)),
           Connections.ConfigFrom(settings.automation),
           dryRun,
           Messaging.MessageDispatcher(Messaging.ConfigFrom(settings.automation), dryRun),
           GetOr(settings.automation.messageTemplate, DefaultTemplate))
  }

  /** The URL the orchestrator reads from a row. */
  function ProfileUrlOf(row: Row): string {
    Strip(Field(row, "profile_url"))
  }

  /** The row's own template, or the default when its cell is empty. */
  function TemplateFor(st: Stages, row: Row): (r: string)
    ensures "custom_message" in row && row["custom_message"] != "" ==> r == row["custom_message"]
    ensures ("custom_message" !in row || row["custom_message"] == "") ==> r == st.defaultTemplate
  {
    if Field(row, "custom_message") != "" then Field(row, "custom_message") else st.defaultTemplate
  }

  /** What one row contributes: its record, the connection count after it
      and the pauses made for it. */
  datatype RowResult = RowResult(record: Record, sentCount: nat, pauses: seq<real>)

  /** The body of the per-row `try` block and its `except` branch. */
  function ProcessRow(st: Stages, sentCount: nat, row: Row, cookies: CookieJar, timestamp: string): (o: RowResult)
    ensures o.record.profileUrl == ProfileUrlOf(row) && o.record.timestamp == timestamp
  {
    match st.scraper.EnrichProfile(row, cookies)
    case Err(_) => RowResult(ErrorRecord(row, ProfileUrlOf(row), timestamp), sentCount, [])
    case Ok(profile) => AfterEnrich(st, sentCount, row, profile, cookies, timestamp)
  }

  /** The rest of the row once enrichment (and its rate-limit pause) is done. */
  function AfterEnrich(st: Stages, sentCount: nat, row: Row, profile: Scraper.Profile, cookies: CookieJar, timestamp: string): (o: RowResult)
    ensures o.record.profileUrl == ProfileUrlOf(row) && o.record.timestamp == timestamp
    ensures |o.pauses| >= 1 && o.pauses[0] == st.scraper.config.rateLimitSeconds
  {
    var enrichPauses := [st.scraper.config.rateLimitSeconds];
    match Connections.Connect(st.senderConfig, st.dryRun, sentCount)
    case Err(_) => RowResult(ErrorRecord(row, ProfileUrlOf(row), timestamp), sentCount, enrichPauses)
    case Ok(connection) =>
      AfterConnect(st, Connections.NextCount(st.senderConfig, st.dryRun, sentCount), enrichPauses + connection.pauses,
                   row, profile, connection.status, cookies, timestamp)
  }

  /** The rest of the row once the connection stage has returned. */
  function AfterConnect(st: Stages, count: nat, pauses: seq<real>, row: Row, profile: Scraper.Profile,
                        connectionStatus: string, cookies: CookieJar, timestamp: string): (o: RowResult)
    ensures o.record.profileUrl == ProfileUrlOf(row) && o.record.timestamp == timestamp
    ensures o.sentCount == count && |pauses| <= |o.pauses| && o.pauses[..|pauses|] == pauses
  {
    var url := ProfileUrlOf(row);
    match BuildMessage(TemplateFor(st, row), profile)
    case Err(_) => RowResult(ErrorRecord(row, url, timestamp), count, pauses)
    case Ok(text) =>
      match st.dispatcher.SendMessage(url, text, connectionStatus, cookies)
      case Err(_) => RowResult(ErrorRecord(row, url, timestamp), count, pauses)
      case Ok(message) =>
        RowResult(Record(url, Some(profile.fullName), profile.headline, profile.company, profile.location,
                         connectionStatus, message.status, timestamp),
                  count, pauses + message.pauses)
  }

  /** The state of a run after a prefix of the rows. */
  datatype RunState = RunState(records: seq<Record>, sentCount: nat, pauses: seq<real>)

  /** The run over `rows` (already limited): rows without a profile URL are
      skipped; row `i` (counted from 1) is stamped with `clock(i)` + "Z". */
  function RunRows(st: Stages, cookies: CookieJar, clock: nat -> string, rows: seq<Row>): (s: RunState)
    ensures |s.records| <= |rows|
    decreases |rows|
  {
    if rows == [] then RunState([], 0, [])
    else
      var prior := RunRows(st, cookies, clock, rows[..|rows| - 1]);
      var row := rows[|rows| - 1];
      if ProfileUrlOf(row) == "" then prior
      else
        var o := ProcessRow(st, prior.sentCount, row, cookies, clock(|rows|) + "Z");
        RunState(prior.records + [o.record], o.sentCount, prior.pauses + o.pauses)
  }

  /** Extending the processed prefix by one row. */
  lemma RunRowsStep(st: Stages, cookies: CookieJar, clock: nat -> string, rows: seq<Row>, i: nat)
    requires i < |rows|
    ensures var prior := RunRows(st, cookies, clock, rows[..i]);
            RunRows(st, cookies, clock, rows[..i + 1])
            == if ProfileUrlOf(rows[i]) == "" then prior
               else var o := ProcessRow(st, prior.sentCount, rows[i], cookies, clock(i + 1) + "Z");
                    RunState(prior.records + [o.record], o.sentCount, prior.pauses + o.pauses)
  {
    assert rows[..i + 1][..i] == rows[..i];
  }

  /** One row, run against the stateful sender. */
  method ProcessOne(st: Stages, sender: Connections.ConnectionSender, row: Row, cookies: CookieJar, timestamp: string)
    returns (record: Record, pauses: seq<real>)
    requires sender.Valid() && sender.config == st.senderConfig && sender.dryRun == st.dryRun
    modifies sender
    ensures sender.Valid()
    ensures RowResult(record, sender.sentCount, pauses) == ProcessRow(st, old(sender.sentCount), row, cookies, timestamp)
  {
    var url := ProfileUrlOf(row);
    var enriched := st.scraper.EnrichProfile(row, cookies);
    if enriched.Err? {
      return ErrorRecord(row, url, timestamp), [];
    }
    var profile := enriched.value;
    pauses := [st.scraper.config.rateLimitSeconds];
    var connection := sender.SendConnection(url, Some(profile.fullName), cookies);
    if connection.Err? {
      return ErrorRecord(row, url, timestamp), pauses;
    }
    pauses := pauses + connection.value.pauses;
    var text := BuildMessage(TemplateFor(st, row), profile);
    if text.Err? {
      return ErrorRecord(row, url, timestamp), pauses;
    }
    var message := st.dispatcher.SendMessage(url, text.value, connection.value.status, cookies);
    if message.Err? {
      return ErrorRecord(row, url, timestamp), pauses;
    }
    record := Record(url, Some(profile.fullName), profile.headline, profile.company, profile.location,
                     connection.value.status, message.value.status, timestamp);
    pauses := pauses + message.value.pauses;
  }

  /** `run`: the records written and the pauses made, for the rows the CSV
      reader yields, the `--limit` option, the settings, the `--dry-run`
      flag, the cookie jar and the clock. */
  method Run(reader: seq<Row>, limit: Option<int>, settings: Settings, dryRun: bool, cookies: CookieJar, clock: nat -> string)
    returns (results: seq<Record>, pauses: seq<real>)
    ensures var s := RunRows(StagesFrom(settings, dryRun), cookies, clock, ApplyLimit(NonBlankRows(reader), limit));
            results == s.records && pauses == s.pauses
  {
    var profiles := LoadProfiles(reader);
    profiles := ApplyLimit(profiles, limit);
    var st := StagesFrom(settings, dryRun);
    var sender := new Connections.ConnectionSender(settings.automation, dryRun);
    results, pauses := ProcessProfiles(st, sender, profiles, cookies, clock);
  }

  /** The loop over the selected rows, with one sender for the whole run. */
  method ProcessProfiles(st: Stages, sender: Connections.ConnectionSender, profiles: seq<Row>, cookies: CookieJar, clock: nat -> string)
    returns (results: seq<Record>, pauses: seq<real>)
    requires sender.Valid() && sender.config == st.senderConfig && sender.dryRun == st.dryRun && sender.sentCount == 0
    modifies sender
    ensures RunRows(st, cookies, clock, profiles) == RunState(results, sender.sentCount, pauses)
  {
    results, pauses := [], [];
    var i := 0;
    while i < |profiles|
      invariant 0 <= i <= |profiles|
      invariant sender.Valid() && sender.config == st.senderConfig && sender.dryRun == st.dryRun
      invariant RunRows(st, cookies, clock, profiles[..i]) == RunState(results, sender.sentCount, pauses)
    {
      RunRowsStep(st, cookies, clock, profiles, i);
      var row := profiles[i];
      if ProfileUrlOf(row) != "" {
        var record, rowPauses := ProcessOne(st, sender, row, cookies, clock(i + 1) + "Z");
        results := results + [record];
        pauses := pauses + rowPauses;
      }
      i := i + 1;
    }
    assert profiles[..|profiles|] == profiles;
  }

  // ---------------------------------------------------------------------
  // Properties of a run

  /** The stripped profile URLs of the rows that have one, in order. */
  function KeptUrls(rows: seq<Row>): seq<string>
    decreases |rows|
  {
    if rows == [] then []
    else
      var prior := KeptUrls(rows[..|rows| - 1]);
      var url := ProfileUrlOf(rows[|rows| - 1]);
      if url == "" then prior else prior + [url]
  }

  function UrlsOf(records: seq<Record>): (urls: seq<string>)
    ensures |urls| == |records|
    ensures forall k :: 0 <= k < |records| ==> urls[k] == records[k].profileUrl
  {
    seq(|records|, k requires 0 <= k < |records| => records[k].profileUrl)
  }

  /** What every record of a run satisfies: it is either an error record,
      with both statuses "Error", or a success record whose statuses come
      from the closed sets, whose name is present, and whose message status
      is the one the dispatcher gives for its connection status: skipped
      exactly when messaging is off or a required request was not sent,
      otherwise delivered in live mode and simulated in dry-run mode. */
  predicate WellFormed(st: Stages, r: Record) {
    && r.profileUrl != ""
    && ((r.connectionStatus == ErrorStatus) == (r.messageStatus == ErrorStatus))
    && (r.connectionStatus != ErrorStatus ==>
          && IsConnectionStatus(r.connectionStatus)
          && IsMessageStatus(r.messageStatus)
          && r.fullName.Some? && r.fullName.value != ""
          && (r.messageStatus == SkippedDisabled <==> !st.dispatcher.config.enabled)
          && (r.messageStatus == SkippedNoConnection <==>
                st.dispatcher.config.enabled && !st.dispatcher.Attempts(r.connectionStatus))
          && (r.messageStatus == Delivered <==> st.dispatcher.Attempts(r.connectionStatus) && !st.dispatcher.dryRun)
          && (r.messageStatus == Simulated <==> st.dispatcher.Attempts(r.connectionStatus) && st.dispatcher.dryRun))
  }

  /** A success record is the stages' own results put together: the
      enriched profile's fields, the connection status, and the status the
      dispatcher returned for the rendered message. */
  predicate FromStages(st: Stages, sentCount: nat, row: Row, cookies: CookieJar, timestamp: string, r: Record) {
    var url := ProfileUrlOf(row);
    var e := st.scraper.EnrichProfile(row, cookies);
    && e.Ok?
    && var c := Connections.Connect(st.senderConfig, st.dryRun, sentCount);
       && c.Ok?
       && var t := BuildMessage(TemplateFor(st, row), e.value);
          && t.Ok?
          && var m := st.dispatcher.SendMessage(url, t.value, c.value.status, cookies);
             && m.Ok?
             && r == Record(url, Some(e.value.fullName), e.value.headline, e.value.company, e.value.location,
                            c.value.status, m.value.status, timestamp)
  }

  /** One row with a profile URL: a well-formed record for this row with
      the given timestamp, the row's own cells when a stage raised, and a
      count that grows by one exactly for a sent request, or for a request
      sent before a later stage raised. */
  lemma ProcessRowFacts(st: Stages, sentCount: nat, row: Row, cookies: CookieJar, timestamp: string)
    requires ProfileUrlOf(row) != ""
    requires sentCount <= Connections.Cap(st.senderConfig)
    ensures var o := ProcessRow(st, sentCount, row, cookies, timestamp);
            && WellFormed(st, o.record)
            && o.record.profileUrl == ProfileUrlOf(row)
            && o.record.timestamp == timestamp
            && (o.record.connectionStatus == ErrorStatus ==> o.record == ErrorRecord(row, ProfileUrlOf(row), timestamp))
            && (o.record.connectionStatus != ErrorStatus ==> FromStages(st, sentCount, row, cookies, timestamp, o.record))
            && sentCount <= o.sentCount <= Connections.Cap(st.senderConfig)
            && o.sentCount <= sentCount + 1
            && (o.record.connectionStatus == RequestSent ==> o.sentCount == sentCount + 1)
  {
    StatusesDistinct();
    var enriched := st.scraper.EnrichProfile(row, cookies);
    if enriched.Ok? {
      AfterEnrichFacts(st, sentCount, row, enriched.value, cookies, timestamp);
      ProcessRowContents(st, sentCount, row, cookies, timestamp);
    }
  }

  lemma ProcessRowContents(st: Stages, sentCount: nat, row: Row, cookies: CookieJar, timestamp: string)
    requires st.scraper.EnrichProfile(row, cookies).Ok?
    ensures var o := ProcessRow(st, sentCount, row, cookies, timestamp);
            o.record.connectionStatus != ErrorStatus ==> FromStages(st, sentCount, row, cookies, timestamp, o.record)
  {
    StatusesDistinct();
    var profile := st.scraper.EnrichProfile(row, cookies).value;
    var c := Connections.Connect(st.senderConfig, st.dryRun, sentCount);
    if c.Ok? {
      AfterConnectContents(st, Connections.NextCount(st.senderConfig, st.dryRun, sentCount),
                           [st.scraper.config.rateLimitSeconds] + c.value.pauses, row, profile, c.value.status, cookies, timestamp);
    }
  }

  lemma AfterConnectContents(st: Stages, count: nat, pauses: seq<real>, row: Row, profile: Scraper.Profile,
                             connectionStatus: string, cookies: CookieJar, timestamp: string)
    ensures var r := AfterConnect(st, count, pauses, row, profile, connectionStatus, cookies, timestamp).record;
            var t := BuildMessage(TemplateFor(st, row), profile);
            r.connectionStatus != ErrorStatus ==>
              && t.Ok?
              && var m := st.dispatcher.SendMessage(ProfileUrlOf(row), t.value, connectionStatus, cookies);
                 && m.Ok?
                 && r == Record(ProfileUrlOf(row), Some(profile.fullName), profile.headline, profile.company, profile.location,
                                connectionStatus, m.value.status, timestamp)
  {
  }

  lemma AfterEnrichFacts(st: Stages, sentCount: nat, row: Row, profile: Scraper.Profile, cookies: CookieJar, timestamp: string)
    requires ProfileUrlOf(row) != "" && profile.fullName != ""
    requires sentCount <= Connections.Cap(st.senderConfig)
    ensures var o := AfterEnrich(st, sentCount, row, profile, cookies, timestamp);
            && WellFormed(st, o.record)
            && o.record.profileUrl == ProfileUrlOf(row)
            && o.record.timestamp == timestamp
            && (o.record.connectionStatus == ErrorStatus ==> o.record == ErrorRecord(row, ProfileUrlOf(row), timestamp))
            && sentCount <= o.sentCount <= Connections.Cap(st.senderConfig)
            && o.sentCount <= sentCount + 1
            && (o.record.connectionStatus == RequestSent ==> o.sentCount == sentCount + 1)
  {
    StatusesDistinct();
    Connections.NextCountWithinCap(st.senderConfig, st.dryRun, sentCount);
    var connection := Connections.Connect(st.senderConfig, st.dryRun, sentCount);
    if connection.Ok? {
      var count := Connections.NextCount(st.senderConfig, st.dryRun, sentCount);
      AfterConnectFacts(st, count, [st.scraper.config.rateLimitSeconds] + connection.value.pauses,
                        row, profile, connection.value.status, cookies, timestamp);
    }
  }

  lemma AfterConnectFacts(st: Stages, count: nat, pauses: seq<real>, row: Row, profile: Scraper.Profile,
                          connectionStatus: string, cookies: CookieJar, timestamp: string)
    requires ProfileUrlOf(row) != "" && profile.fullName != ""
    requires IsConnectionStatus(connectionStatus)
    ensures var o := AfterConnect(st, count, pauses, row, profile, connectionStatus, cookies, timestamp);
            && WellFormed(st, o.record)
            && o.record.profileUrl == ProfileUrlOf(row)
            && o.record.timestamp == timestamp
            && (o.record.connectionStatus == ErrorStatus ==> o.record == ErrorRecord(row, ProfileUrlOf(row), timestamp))
            && (o.record.connectionStatus != ErrorStatus ==> o.record.connectionStatus == connectionStatus)
            && o.sentCount == count
  {
    StatusesDistinct();
  }

  /** The records follow the selected rows: one per row with a profile URL,
      in the rows' order, and none for a row without one. */
  lemma {:induction false} RecordsFollowRows(st: Stages, cookies: CookieJar, clock: nat -> string, rows: seq<Row>)
    ensures UrlsOf(RunRows(st, cookies, clock, rows).records) == KeptUrls(rows)
    decreases |rows|
  {
    if rows != [] {
      var init := rows[..|rows| - 1];
      RecordsFollowRows(st, cookies, clock, init);
      var prior := RunRows(st, cookies, clock, init);
      var row := rows[|rows| - 1];
      if ProfileUrlOf(row) != "" {
        var o := ProcessRow(st, prior.sentCount, row, cookies, clock(|rows|) + "Z");
        UrlsOfAppend(prior.records, o.record);
      }
    }
  }

  lemma UrlsOfAppend(records: seq<Record>, r: Record)
    ensures UrlsOf(records + [r]) == UrlsOf(records) + [r.profileUrl]
  {
  }

  /** The number of records whose connection request was sent. */
  function CountSent(records: seq<Record>): nat
    decreases |records|
  {
    if records == [] then 0
    else CountSent(records[..|records| - 1]) + (if records[|records| - 1].connectionStatus == RequestSent then 1 else 0)
  }

  /** The daily cap holds over a whole run: the sender's count never passes
      it, and no more records report a sent request than the count (a
      request can be counted for a row whose later stage raised). */
  lemma {:induction false} RunRowsWithinCap(st: Stages, cookies: CookieJar, clock: nat -> string, rows: seq<Row>)
    ensures RunRows(st, cookies, clock, rows).sentCount <= Connections.Cap(st.senderConfig)
    ensures CountSent(RunRows(st, cookies, clock, rows).records) <= RunRows(st, cookies, clock, rows).sentCount
    decreases |rows|
  {
    if rows != [] {
      var init := rows[..|rows| - 1];
      RunRowsWithinCap(st, cookies, clock, init);
      var prior := RunRows(st, cookies, clock, init);
      var row := rows[|rows| - 1];
      if ProfileUrlOf(row) != "" {
        var o := ProcessRow(st, prior.sentCount, row, cookies, clock(|rows|) + "Z");
        ProcessRowFacts(st, prior.sentCount, row, cookies, clock(|rows|) + "Z");
        var rs := prior.records + [o.record];
        assert rs[..|rs| - 1] == prior.records;
      }
    }
  }

  /** Every record of a run is well formed. */
  lemma {:induction false} RunRowsWellFormed(st: Stages, cookies: CookieJar, clock: nat -> string, rows: seq<Row>)
    ensures forall k :: 0 <= k < |RunRows(st, cookies, clock, rows).records| ==> WellFormed(st, RunRows(st, cookies, clock, rows).records[k])
    decreases |rows|
  {
    if rows != [] {
      var init := rows[..|rows| - 1];
      RunRowsWellFormed(st, cookies, clock, init);
      RunRowsWithinCap(st, cookies, clock, init);
      var prior := RunRows(st, cookies, clock, init);
      var row := rows[|rows| - 1];
      if ProfileUrlOf(row) != "" {
        ProcessRowFacts(st, prior.sentCount, row, cookies, clock(|rows|) + "Z");
      }
    }
  }

  /** In dry-run mode the only pauses are the scraper's rate-limit pauses. */
  lemma {:induction false} DryRunPausesOnlyForRateLimit(st: Stages, cookies: CookieJar, clock: nat -> string, rows: seq<Row>)
    requires st.dryRun && st.dispatcher.dryRun
    ensures forall k :: 0 <= k < |RunRows(st, cookies, clock, rows).pauses| ==>
              RunRows(st, cookies, clock, rows).pauses[k] == st.scraper.config.rateLimitSeconds
    decreases |rows|
  {
    if rows != [] {
      var init := rows[..|rows| - 1];
      DryRunPausesOnlyForRateLimit(st, cookies, clock, init);
      var prior := RunRows(st, cookies, clock, init);
      var row := rows[|rows| - 1];
      if ProfileUrlOf(row) != "" {
        DryRunRowPauses(st, prior.sentCount, row, cookies, clock(|rows|) + "Z");
      }
    }
  }

  /** In dry-run mode a row pauses only for the rate limit, once at most. */
  lemma DryRunRowPauses(st: Stages, sentCount: nat, row: Row, cookies: CookieJar, timestamp: string)
    requires st.dryRun && st.dispatcher.dryRun
    ensures var o := ProcessRow(st, sentCount, row, cookies, timestamp);
            o.pauses == [] || o.pauses == [st.scraper.config.rateLimitSeconds]
  {
    var enriched := st.scraper.EnrichProfile(row, cookies);
    if enriched.Ok? {
      var connection := Connections.Connect(st.senderConfig, st.dryRun, sentCount);
      if connection.Ok? {
        var pauses := [st.scraper.config.rateLimitSeconds] + connection.value.pauses;
        assert pauses == [st.scraper.config.rateLimitSeconds];
        var count := Connections.NextCount(st.senderConfig, st.dryRun, sentCount);
        DryRunMessagePauses(st, count, pauses, row, enriched.value, connection.value.status, cookies, timestamp);
      }
    }
  }

  lemma DryRunMessagePauses(st: Stages, count: nat, pauses: seq<real>, row: Row, profile: Scraper.Profile,
                            connectionStatus: string, cookies: CookieJar, timestamp: string)
    requires st.dispatcher.dryRun
    ensures AfterConnect(st, count, pauses, row, profile, connectionStatus, cookies, timestamp).pauses == pauses
  {
    var text := BuildMessage(TemplateFor(st, row), profile);
    if text.Ok? {
      var message := st.dispatcher.SendMessage(ProfileUrlOf(row), text.value, connectionStatus, cookies);
      if message.Ok? {
        assert message.value.pauses == [];
        assert pauses + [] == pauses;
      }
    }
  }

  /** A row with a profile URL and a name of its own gets a success record
      whenever no configured pause is negative. */
  lemma SucceedsWithName(st: Stages, sentCount: nat, row: Row, cookies: CookieJar, timestamp: string)
    requires ProfileUrlOf(row) != "" && Strip(Field(row, "full_name")) != ""
    requires st.scraper.config.rateLimitSeconds >= 0.0
    requires Connections.NeverSleepsNegative(st.senderConfig, st.dryRun)
    requires st.dispatcher.dryRun || st.dispatcher.config.delayAfterConnectionSeconds >= 0.0
    ensures var r := ProcessRow(st, sentCount, row, cookies, timestamp).record;
            r.connectionStatus != ErrorStatus && r.fullName == Some(Strip(Field(row, "full_name")))
  {
    var enriched := st.scraper.EnrichProfile(row, cookies);
    assert enriched.Ok?;
    var profile := enriched.value;
    assert profile.fullName == Strip(Field(row, "full_name"));
    StrippedIsNotBlank(Field(row, "full_name"));
    var connection := Connections.Connect(st.senderConfig, st.dryRun, sentCount);
    assert connection.Ok?;
    AfterConnectSucceeds(st, Connections.NextCount(st.senderConfig, st.dryRun, sentCount),
                         [st.scraper.config.rateLimitSeconds] + connection.value.pauses,
                         row, profile, connection.value.status, cookies, timestamp);
  }

  lemma StrippedIsNotBlank(s: string)
    requires Strip(s) != ""
    ensures !AllSatisfy(Strip(s), IsSpace)
  {
    StripShape(s);
    assert !IsSpace(Strip(s)[0]);
  }

  lemma AfterConnectSucceeds(st: Stages, count: nat, pauses: seq<real>, row: Row, profile: Scraper.Profile,
                             connectionStatus: string, cookies: CookieJar, timestamp: string)
    requires profile.fullName != "" && !AllSatisfy(profile.fullName, IsSpace)
    requires IsConnectionStatus(connectionStatus)
    requires st.dispatcher.dryRun || st.dispatcher.config.delayAfterConnectionSeconds >= 0.0
    ensures var r := AfterConnect(st, count, pauses, row, profile, connectionStatus, cookies, timestamp).record;
            r.connectionStatus == connectionStatus && r.fullName == Some(profile.fullName)
  {
    StatusesDistinct();
  }

  /** A lead URL ending in a numeric id and a row without a name, in
      dry-run mode under the cap with messaging enabled: the record is named
      `Lead <id>`, its request is sent and its message simulated. */
  lemma DryRunLeadRecord(st: Stages, sentCount: nat, row: Row, cookies: CookieJar, timestamp: string,
                         scheme: string, host: string, prefix: string, id: string)
    requires Urls.ValidScheme(scheme) && Urls.PlainHost(host)
    requires prefix == [] || prefix[0] == '/'
    requires '?' !in prefix && '#' !in prefix && Urls.Safe(prefix)
    requires IsDigits(id)
    requires ProfileUrlOf(row) == scheme + "://" + host + prefix + "/" + id
    requires Strip(Field(row, "full_name")) == ""
    requires st.scraper.config.rateLimitSeconds >= 0.0
    requires st.dryRun && st.dispatcher.dryRun && st.dispatcher.config.enabled
    requires sentCount < st.senderConfig.maxDailyConnections
    ensures var r := ProcessRow(st, sentCount, row, cookies, timestamp).record;
            r.fullName == Some("Lead " + id) && r.connectionStatus == RequestSent && r.messageStatus == Simulated
  {
    DigitsAreSegment(id);
    Scraper.DeriveNameOfLeadUrl(scheme, host, prefix, id);
    var enriched := st.scraper.EnrichProfile(row, cookies);
    assert enriched.Ok? && enriched.value.fullName == "Lead " + id;
    assert !AllSatisfy("Lead " + id, IsSpace) by { assert ("Lead " + id)[0] == 'L'; }
    var connection := Connections.Connect(st.senderConfig, st.dryRun, sentCount);
    assert connection == Ok(Outcome(RequestSent, []));
    AfterConnectSimulated(st, sentCount + 1, [st.scraper.config.rateLimitSeconds] + [], row, enriched.value, cookies, timestamp);
  }

  lemma DigitsAreSegment(id: string)
    requires IsDigits(id)
    ensures id != [] && '/' !in id && '?' !in id && '#' !in id && Urls.Safe(id)
  {
    assert forall i :: 0 <= i < |id| ==> IsAsciiDigit(id[i]);
  }

  lemma AfterConnectSimulated(st: Stages, count: nat, pauses: seq<real>, row: Row, profile: Scraper.Profile,
                              cookies: CookieJar, timestamp: string)
    requires profile.fullName != "" && !AllSatisfy(profile.fullName, IsSpace)
    requires st.dispatcher.dryRun && st.dispatcher.config.enabled
    ensures var r := AfterConnect(st, count, pauses, row, profile, RequestSent, cookies, timestamp).record;
            r.fullName == Some(profile.fullName) && r.connectionStatus == RequestSent && r.messageStatus == Simulated
  {
  }

  /** A lead URL whose last segment is a lone hyphen and a row without a
      name: the derived name is a single space, so `build_message` raises
      before any message is attempted, and the row gets an error record
      even though its connection request was sent. */
  lemma HyphenSlugGivesErrorRecord(st: Stages, sentCount: nat, row: Row, cookies: CookieJar, timestamp: string,
                                   scheme: string, host: string, prefix: string)
    requires Urls.ValidScheme(scheme) && Urls.PlainHost(host)
    requires prefix == [] || prefix[0] == '/'
    requires '?' !in prefix && '#' !in prefix && Urls.Safe(prefix)
    requires ProfileUrlOf(row) == scheme + "://" + host + prefix + "/-"
    requires Strip(Field(row, "full_name")) == ""
    requires st.scraper.config.rateLimitSeconds >= 0.0
    requires st.dryRun && sentCount < st.senderConfig.maxDailyConnections
    ensures var o := ProcessRow(st, sentCount, row, cookies, timestamp);
            o.record == ErrorRecord(row, ProfileUrlOf(row), timestamp) && o.sentCount == sentCount + 1
  {
    HyphenUrlName(scheme, host, prefix);
    var enriched := st.scraper.EnrichProfile(row, cookies);
    assert enriched.Ok? && enriched.value.fullName == " ";
    assert AllSatisfy(enriched.value.fullName, IsSpace);
    var connection := Connections.Connect(st.senderConfig, st.dryRun, sentCount);
    assert connection == Ok(Outcome(RequestSent, []));
    BlankNameGivesErrorRecord(st, sentCount + 1, [st.scraper.config.rateLimitSeconds] + [], row, enriched.value, RequestSent, cookies, timestamp);
  }

  /** A whitespace-only name makes `build_message` raise, so the row's
      record is its error record, whatever the connection stage did. */
  lemma BlankNameGivesErrorRecord(st: Stages, count: nat, pauses: seq<real>, row: Row, profile: Scraper.Profile,
                                  connectionStatus: string, cookies: CookieJar, timestamp: string)
    requires profile.fullName != "" && AllSatisfy(profile.fullName, IsSpace)
    ensures AfterConnect(st, count, pauses, row, profile, connectionStatus, cookies, timestamp)
         == RowResult(ErrorRecord(row, ProfileUrlOf(row), timestamp), count, pauses)
  {
  }

  lemma HyphenUrlName(scheme: string, host: string, prefix: string)
    requires Urls.ValidScheme(scheme) && Urls.PlainHost(host)
    requires prefix == [] || prefix[0] == '/'
    requires '?' !in prefix && '#' !in prefix && Urls.Safe(prefix)
    ensures Scraper.DeriveNameFromUrl(scheme + "://" + host + prefix + "/-") == " "
  {
    var base := scheme + "://" + host + prefix;
    assert base + "/-" == base + "/" + "-";
    Scraper.DeriveNameOfLeadUrl(scheme, host, prefix, "-");
    LoneHyphenName();
  }

  lemma LoneHyphenName()
    ensures Scraper.NameOfSegment("-") == " "
  {
    assert !IsAsciiDigit('-');
    assert ReplaceChar("-", '-', ' ') == " ";
    assert Title(" ") == " ";
  }
}
