# LinkedIn Sales Navigator automation runner — a Dafny model

The runner reads profile rows from a CSV file. It drops blank lines and
keeps the first `--limit` rows. Every row with a profile URL then goes
through three simulated stages:

1. **Enrichment** (`NavigatorScraper`): trims the row's cells. A missing name
   is derived from the URL's last path segment, and a `company`, `org` or
   `cname` query parameter overrides the CSV company. It pauses for the rate
   limit.
2. **Connection request** (`ConnectionSender`): sends a request unless the
   daily cap is reached. In live mode it first pauses for a delay that ramps
   up with the number already sent.
3. **Follow-up message** (`MessageDispatcher`): renders the template with
   `build_message`. The message is delivered in live mode, simulated in
   dry-run mode, or skipped when messaging is disabled or, when a sent request
   is required, none was sent.

Each such row gives one result record. A row whose stages raise gets an error
record built from its raw cells, with both statuses `"Error"`.

The model has one module per source file:

- `Scraper`: `navigator_scraper.py`.
- `Connections`: `connection_sender.py`.
- `Messaging`: `message_dispatcher.py`.
- `Pipeline`: `main.py`.
- Three modules model the small parts of Python the core relies on:
  - `Strings`: `str.strip`, `split`, `title`, `isdigit`, on ASCII.
  - `Urls`: `urlparse` and `parse_qsl`.
  - `Template`: `str.format` with keyword fields.
- `Common`: the shared vocabulary.

How Python behaviour is represented:

- **Exceptions:** an exception a stage can raise is a `Result` error (`Common.Fault`).
- **Sleeps:** `time.sleep` becomes a returned list of pause durations. A
  negative duration is the `ValueError` that `time.sleep` raises.
- **Connection sender:** a `class` whose `sentCount` field the
  `SendConnection` method updates.
- **Scraper and dispatcher:** these never change after construction, so they
  are datatypes with pure member functions.
- **The run loop:** `Pipeline.ProcessProfiles` loops over the rows. It is
  proved equal to the recursive function `Pipeline.RunRows`, which
  gives the records, the final count and every pause. The run-level
  properties are proved about `RunRows`.

Three facts about the code that the model makes explicit:

- **`build_message` is not total.** A whitespace-only `full_name` makes
  `full_name.split()[0]` raise `IndexError`, and the `or "there"` default
  does not catch it, because a string of spaces is truthy.
  - This is reachable: take a row without a name whose URL ends in `/-`.
    The derived slug is then `" "`, so the `"LinkedIn Member"` fallback is
    not used.
  - That row gets an error record, although its connection request was
    already counted (`Pipeline.HyphenSlugGivesErrorRecord`).
- **The rate-limit sleep in `enrich_profile` ignores dry-run mode.** Only the
  sender's and the dispatcher's sleeps depend on the mode
  (`Pipeline.DryRunPausesOnlyForRateLimit`).
- **Error records and the cap.** An error record can follow a counted
  request. The cap bounds the counted requests and therefore the
  `"Request Sent"` records, but their number can be smaller than the count
  (`Pipeline.RunRowsWithinCap`).

## Model

| member | source | states |
|---|---|---|
| Common.StatusesDistinct | linkedin-automation-tool-scraper/src/main.py:210-211 | the status "Error" of an error record is none of the connection or message statuses, and the two connection statuses differ |
| Strings.StripShape | linkedin-automation-tool-scraper/src/modules/navigator_scraper.py:69 | `strip()` yields a contiguous slice of its input that neither begins nor ends with whitespace |
| Strings.StripEmptyIffBlank | linkedin-automation-tool-scraper/src/modules/navigator_scraper.py:69-71 | a cell strips to the empty string exactly when it is all whitespace, so a whitespace-only URL counts as missing |
| Strings.StripIdempotent | linkedin-automation-tool-scraper/src/modules/navigator_scraper.py:69 | stripping an already stripped cell changes nothing |
| Strings.StripUnpadded | linkedin-automation-tool-scraper/src/main.py:75 | a text that begins and ends with a non-space character is left unchanged by the final `strip()` |
| Strings.Split | linkedin-automation-tool-scraper/src/modules/navigator_scraper.py:36-37 | `split("/")` always yields at least one piece and no piece holds the separator, which is why `if not path_parts` can never fire |
| Strings.SplitLastAfterFinalSep | linkedin-automation-tool-scraper/src/modules/navigator_scraper.py:40 | the last piece of a split is the text after the last separator |
| Strings.Words | linkedin-automation-tool-scraper/src/main.py:66 | `split()` yields only non-empty runs of non-whitespace characters |
| Strings.WordsEmptyIffBlank | linkedin-automation-tool-scraper/src/main.py:66 | `split()` is empty, so `[0]` raises, exactly when the name is made only of whitespace |
| Strings.FirstWordAfterSpaces | linkedin-automation-tool-scraper/src/main.py:66 | `split()[0]` of any string with a word is the leading run of non-space characters after its leading whitespace |
| Strings.FirstWordOfUnpadded | linkedin-automation-tool-scraper/src/main.py:66 | the first word of a name that starts with a non-space character is its leading run of non-space characters |
| Strings.ReplaceChar | linkedin-automation-tool-scraper/src/modules/navigator_scraper.py:44 | `replace("-", " ")` keeps the length and changes exactly the hyphens |
| Urls.SplitOnce | linkedin-automation-tool-scraper/src/modules/navigator_scraper.py:53-54 | splitting at the first separator: the head holds no separator and head, separator and tail rebuild the input |
| Urls.ParseUrl | linkedin-automation-tool-scraper/src/modules/navigator_scraper.py:36 | a parsed path holds no `?` or `#` and a parsed query holds no `#`; the URL is first cleaned by `Sanitize` |
| Urls.Sanitize | linkedin-automation-tool-scraper/src/modules/navigator_scraper.py:36 | `urlsplit`'s cleaning: the cleaned URL holds no tab, CR or LF |
| Urls.SanitizeOfSafe | linkedin-automation-tool-scraper/src/modules/navigator_scraper.py:36 | a URL that starts with a printable character and holds no tab, CR or LF is left unchanged |
| Urls.UnsafeCharIgnored | linkedin-automation-tool-scraper/src/modules/navigator_scraper.py:36 | a tab, CR or LF anywhere in a URL is deleted before parsing |
| Urls.ParseHierarchicalUrl | linkedin-automation-tool-scraper/src/modules/navigator_scraper.py:53 | `scheme://host/path?query` parses to that scheme (lower-cased), host, path and query |
| Urls.ParseHierarchicalUrlNoQuery | linkedin-automation-tool-scraper/src/modules/navigator_scraper.py:36 | `scheme://host/path` parses to that host and path with an empty query |
| Urls.ParseQsl | linkedin-automation-tool-scraper/src/modules/navigator_scraper.py:54 | blank values are dropped: every parsed pair has a non-empty value |
| Urls.DroppedField | linkedin-automation-tool-scraper/src/modules/navigator_scraper.py:54 | a single field without `=`, or with an empty value, gives no pair |
| Urls.ParseQslJoin | linkedin-automation-tool-scraper/src/modules/navigator_scraper.py:54 | fields are parsed one by one: the pairs of `q1&q2` are those of `q1` followed by those of `q2` |
| Urls.EmptyQuery | linkedin-automation-tool-scraper/src/modules/navigator_scraper.py:54 | an empty query has no parameters |
| Urls.SingleField | linkedin-automation-tool-scraper/src/modules/navigator_scraper.py:54 | a query of one `name=value` field with a non-empty value is exactly that pair |
| Urls.FirstValue | linkedin-automation-tool-scraper/src/modules/navigator_scraper.py:56-57 | `query[key][0]`: the value of the first pair with that key, and absent exactly when no pair has that key |
| Template.Parse | linkedin-automation-tool-scraper/src/main.py:75 | a parsed template's field names hold no braces |
| Template.Format | linkedin-automation-tool-scraper/src/main.py:75 | `template.format(**context)` fails exactly when the template does not parse or one of its fields is not a keyword of the context |
| Template.FieldText | linkedin-automation-tool-scraper/src/main.py:75 | a replacement field's name is the brace-free text up to the next brace |
| Template.Render | linkedin-automation-tool-scraper/src/main.py:75 | formatting a parsed template fails exactly when some field is positional, empty or missing from the keyword arguments |
| Template.ParseUnparse | linkedin-automation-tool-scraper/src/main.py:75 | parsing the text of a parsed template gives it back (fields without braces in their names) |
| Template.UnparseParse | linkedin-automation-tool-scraper/src/main.py:75 | a template that parses is exactly the text of its pieces |
| Template.FormatPlainText | linkedin-automation-tool-scraper/src/main.py:75 | a template without braces formats to itself |
| Template.RenderAppend | linkedin-automation-tool-scraper/src/main.py:75 | rendering two pieces of a template renders each and joins them |
| Template.FormatOneField | linkedin-automation-tool-scraper/src/main.py:75 | a template with one keyword field between brace-free texts formats to those texts around the field's value |
| Scraper.ConfigFrom | linkedin-automation-tool-scraper/src/modules/navigator_scraper.py:21-27 | each setting is the configured value, or 20 s timeout and 1.5 s rate limit when absent |
| Scraper.NameOfSegment | linkedin-automation-tool-scraper/src/modules/navigator_scraper.py:40-44 | the derived name is never empty: `Lead <id>` for digits, the title-cased slug with hyphens as spaces otherwise, "LinkedIn Member" for an empty segment |
| Strings.Title | linkedin-automation-tool-scraper/src/modules/navigator_scraper.py:44 | `title()` keeps the length; each character is upper-cased at the start of a word and lower-cased after a letter |
| Strings.SplitJoin | linkedin-automation-tool-scraper/src/modules/navigator_scraper.py:36-37 | splitting `a/b` gives the pieces of `a` followed by those of `b` |
| Scraper.NameFromPath | linkedin-automation-tool-scraper/src/modules/navigator_scraper.py:36-44 | the name derived from a path is never empty |
| Scraper.HyphenatedSlugName | linkedin-automation-tool-scraper/src/modules/navigator_scraper.py:44 | the segment `jane-doe` gives the name `Jane Doe` |
| Scraper.DeriveNameFromUrl | linkedin-automation-tool-scraper/src/modules/navigator_scraper.py:29-46 | the name is never empty; it comes from the parsed path, and a URL that fails to parse gives "LinkedIn Member" |
| Scraper.NameFromLastSegment | linkedin-automation-tool-scraper/src/modules/navigator_scraper.py:36-40 | only the last path segment decides the name, whatever precedes it and however many slashes trail it |
| Scraper.DeriveNameOfLeadUrl | linkedin-automation-tool-scraper/src/modules/navigator_scraper.py:29-46 | for `scheme://host/.../segment` the derived name is the name of that last segment (the docstring's `Lead 1234567890` case) |
| Scraper.DeriveNameWithoutPath | linkedin-automation-tool-scraper/src/modules/navigator_scraper.py:36-44 | a URL without a path gives "LinkedIn Member" |
| Scraper.UnsafeCharsIgnoredInUrl | linkedin-automation-tool-scraper/src/modules/navigator_scraper.py:29-60 | a tab, CR or LF in a profile URL changes neither the derived name nor the derived company |
| Scraper.FirstKeyValue | linkedin-automation-tool-scraper/src/modules/navigator_scraper.py:55-60 | the result is the fallback or the first value of one of the keys; a non-fallback result is a value recorded for one of the keys |
| Scraper.FirstKeyValueFallback | linkedin-automation-tool-scraper/src/modules/navigator_scraper.py:55-60 | when none of the keys has a value the fallback is returned unchanged |
| Scraper.FirstKeyValueFirstHit | linkedin-automation-tool-scraper/src/modules/navigator_scraper.py:55-57 | otherwise the first value of the earliest key that has one wins and later keys are not consulted |
| Scraper.DeriveCompanyFromCompanyKey | linkedin-automation-tool-scraper/src/modules/navigator_scraper.py:48-60 | a `company` query parameter overrides any fallback (with `+` read as a space) |
| Scraper.DeriveCompanyFromQuery | linkedin-automation-tool-scraper/src/modules/navigator_scraper.py:48-60 | a URL that fails to parse returns the fallback; any other result is a value that one of `company`, `org`, `cname` has in the query |
| Scraper.DeriveCompanyAfterOtherFields | linkedin-automation-tool-scraper/src/modules/navigator_scraper.py:48-60 | `?fields&company=value` gives `value` (with `+` read as a space) when the earlier fields hold none of the company keys |
| Scraper.EmptyCompanyPassedOver | linkedin-automation-tool-scraper/src/modules/navigator_scraper.py:54-60 | for `company=&org=value` the empty `company` field is dropped and `org` supplies the company |
| Scraper.EmptyCompanyQuery | linkedin-automation-tool-scraper/src/modules/navigator_scraper.py:54 | `company=&org=value` parses to the one `org` pair |
| Scraper.DeriveCompanyWithoutQuery | linkedin-automation-tool-scraper/src/modules/navigator_scraper.py:48-60 | a URL without a query returns the fallback company unchanged |
| Scraper.NavigatorScraper.EnrichProfile | linkedin-automation-tool-scraper/src/modules/navigator_scraper.py:62-102 | fails for a blank URL and for a negative rate limit, and succeeds otherwise; the profile holds the stripped URL, a non-empty name (the stripped CSV name, else the URL-derived one), the stripped headline and location (absent when empty) and the query-derived company with the CSV company as fallback |
| Connections.ConfigFrom | linkedin-automation-tool-scraper/src/modules/connection_sender.py:30-34 | each setting is the configured value, or 20 requests, 3.0 s and 7.5 s when absent (not the record's own 5.0 s and 15.0 s) |
| Connections.RampDelay | linkedin-automation-tool-scraper/src/modules/connection_sender.py:37-45 | the delay lies between the smaller configured delay and both the maximum delay and the minimum plus 2 s, and is non-negative when both configured delays are |
| Connections.RampDelayMonotone | linkedin-automation-tool-scraper/src/modules/connection_sender.py:42-44 | the delay never shrinks as more requests are sent and is constant from the tenth on |
| Connections.Connect | linkedin-automation-tool-scraper/src/modules/connection_sender.py:47-74 | a request is sent exactly when under the cap; it raises only in live mode under the cap with a negative delay; it pauses only for a live request, by the ramp delay; a skip pauses and counts nothing |
| Connections.NextCount | linkedin-automation-tool-scraper/src/modules/connection_sender.py:51-74 | the count rises by at most one, and by one exactly when the call succeeds under the cap |
| Connections.NextCountWithinCap | linkedin-automation-tool-scraper/src/modules/connection_sender.py:51-57 | one call raises the count by at most one and never past the cap |
| Connections.CapEnforced | linkedin-automation-tool-scraper/src/modules/connection_sender.py:47-74 | of successive calls none raises, the first calls up to the cap send, every later one is skipped, and the count ends at the smaller of calls and cap |
| Connections.ConnectionSender.constructor | linkedin-automation-tool-scraper/src/modules/connection_sender.py:21-35 | a new sender has the derived configuration, the given mode and a count of zero |
| Connections.ConnectionSender.SendConnection | linkedin-automation-tool-scraper/src/modules/connection_sender.py:47-74 | the returned status and pauses are those of `Connect` on the old count; the count becomes `NextCount` and stays within the cap |
| Messaging.ConfigFrom | linkedin-automation-tool-scraper/src/modules/message_dispatcher.py:29-37 | each setting is the configured value, or enabled, 2.0 s and connection required when absent |
| Messaging.MessageDispatcher.SendMessage | linkedin-automation-tool-scraper/src/modules/message_dispatcher.py:39-71 | each message status in terms of configuration, mode and connection status (skipped-disabled iff disabled, skipped-no-connection iff a required request was not sent, delivered iff attempted live, simulated iff attempted in dry-run); it pauses only on delivery and raises only when delivering with a negative delay |
| Messaging.SendMessageDependsOnStatusOnly | linkedin-automation-tool-scraper/src/modules/message_dispatcher.py:49-59 | URL, text and cookies never matter, and the connection status matters only as "sent or not" when a sent connection is required |
| Messaging.SkipsIgnoreMode | linkedin-automation-tool-scraper/src/modules/message_dispatcher.py:49-59 | a skipped message is skipped for the same reason in dry-run and live mode |
| Pipeline.GreetingName | linkedin-automation-tool-scraper/src/main.py:65 | `profile.get("full_name") or "there"`: the profile's name when non-empty, "there" otherwise |
| Pipeline.MessageContext | linkedin-automation-tool-scraper/src/main.py:67-73 | exactly the five keys; `full_name` and `first_name` as given, and headline, company and location the profile's value or "" when absent |
| Pipeline.FirstName | linkedin-automation-tool-scraper/src/main.py:65-66 | the first name is a single non-empty word without whitespace |
| Pipeline.NamelessFirstName | linkedin-automation-tool-scraper/src/main.py:65-66 | a profile without a name has the first name "there" |
| Pipeline.FirstNameAfterSpaces | linkedin-automation-tool-scraper/src/main.py:66 | the first name is the first run of non-space characters after the leading whitespace |
| Pipeline.LeadingSpaceFirstName | linkedin-automation-tool-scraper/src/main.py:66 | the name " Jane" (derived from the slug `-jane`) has the first name "Jane" |
| Pipeline.FallbackMessage | linkedin-automation-tool-scraper/src/main.py:78 | the fixed sentence begins with "Hi " and the first name |
| Pipeline.BuildMessage | linkedin-automation-tool-scraper/src/main.py:61-78 | raises exactly when the name is non-empty and whitespace-only, and then with the `split()[0]` error |
| Pipeline.BuildMessageFormatted | linkedin-automation-tool-scraper/src/main.py:65-75 | a template that formats with the five keyword arguments gives the formatted text, stripped |
| Pipeline.BuildMessageUnknownField | linkedin-automation-tool-scraper/src/main.py:67-78 | a template with a field that is not one of the five keyword arguments (an unknown name, a number, an empty field) gives the fixed sentence with the first name |
| Pipeline.BuildMessageFallback | linkedin-automation-tool-scraper/src/main.py:74-78 | a template that does not parse gives the fixed sentence with the first name |
| Pipeline.BuildMessagePlain | linkedin-automation-tool-scraper/src/main.py:75 | a template without braces is sent as written, stripped |
| Pipeline.BuildMessageDefault | linkedin-automation-tool-scraper/src/main.py:155-158 | the default template greets the profile by its first name (or "there"), unchanged by the strip |
| Pipeline.FirstNameOfUnpadded | linkedin-automation-tool-scraper/src/main.py:65-66 | for a name starting with a non-space character the first name is its leading run of non-space characters |
| Pipeline.ApplyLimit | linkedin-automation-tool-scraper/src/main.py:135-137 | `rows[:n]`: a prefix of the rows, all of them without a limit, the first `n` for `n >= 0`, all but the last `-n` for negative `n` |
| Pipeline.NonBlankRows | linkedin-automation-tool-scraper/src/main.py:43-47 | the kept rows are exactly the non-blank rows of the reader |
| Pipeline.NonBlankRowsAppend | linkedin-automation-tool-scraper/src/main.py:43-47 | the filter works row by row: filtering joined rows joins the filtered rows, so order and multiplicity are kept |
| Pipeline.NonBlankRowsSingle | linkedin-automation-tool-scraper/src/main.py:45-47 | a single row is kept exactly when it is not blank |
| Pipeline.NonBlankRowsIdempotent | linkedin-automation-tool-scraper/src/main.py:43-47 | filtering kept rows again keeps all of them |
| Pipeline.LoadProfiles | linkedin-automation-tool-scraper/src/main.py:40-47 | the loop over the reader returns exactly `NonBlankRows` of it |
| Pipeline.RowIsBlank | linkedin-automation-tool-scraper/src/main.py:45 | the cell-by-cell loop decides exactly whether every cell strips to the empty string |
| Pipeline.ErrorRecord | linkedin-automation-tool-scraper/src/main.py:203-214 | the record keeps the URL and timestamp, both statuses are "Error", and each of name, headline, company and location is present exactly when its raw cell is non-empty, and then is that raw, unstripped cell |
| Pipeline.TemplateFor | linkedin-automation-tool-scraper/src/main.py:180 | the row's `custom_message` when it is non-empty, the default template otherwise |
| Pipeline.ProcessRow | linkedin-automation-tool-scraper/src/main.py:168-214 | the record of a row carries the row's stripped URL and the row's timestamp |
| Pipeline.AfterEnrich | linkedin-automation-tool-scraper/src/main.py:170-214 | after enrichment the record keeps the URL and timestamp, and the first pause is the rate-limit pause |
| Pipeline.AfterConnect | linkedin-automation-tool-scraper/src/main.py:180-214 | after the connection stage the count no longer changes and the earlier pauses are kept as a prefix |
| Pipeline.RunRows | linkedin-automation-tool-scraper/src/main.py:160-214 | a run gives at most one record per row |
| Pipeline.RunRowsStep | linkedin-automation-tool-scraper/src/main.py:160-214 | one more row either is skipped for a missing URL or appends its record and pauses and takes its count |
| Pipeline.StagesFrom | linkedin-automation-tool-scraper/src/main.py:139-158 | both action stages share the `--dry-run` flag, and the default template is the configured one or the built-in greeting |
| Pipeline.ProcessOne | linkedin-automation-tool-scraper/src/main.py:168-214 | one row against the stateful sender: its record, pauses and new count are those of `ProcessRow` on the old count |
| Pipeline.ProcessProfiles | linkedin-automation-tool-scraper/src/main.py:160-214 | the loop's records, pauses and final count are exactly `RunRows` of the selected rows |
| Pipeline.Run | linkedin-automation-tool-scraper/src/main.py:128-214 | the records and pauses of a run are `RunRows` over the limited non-blank rows, with stages built from the settings |
| Pipeline.ProcessRowFacts | linkedin-automation-tool-scraper/src/main.py:168-214 | a row with a URL gets one well-formed record with its URL and timestamp: the raw-cell error record when a stage raised, otherwise the record built from the enriched profile, the connection status and the dispatcher's status for the rendered message; the count grows by at most one, by one for a sent request, never past the cap |
| Pipeline.ProcessRowContents | linkedin-automation-tool-scraper/src/main.py:168-199 | a success record is made of the stages' own results |
| Pipeline.RecordsFollowRows | linkedin-automation-tool-scraper/src/main.py:160-214 | the records' URLs are exactly the stripped URLs of the rows that have one, in order |
| Pipeline.RunRowsWithinCap | linkedin-automation-tool-scraper/src/main.py:160-214 | over a whole run the count stays within the cap, and no more records report a sent request than were counted |
| Pipeline.RunRowsWellFormed | linkedin-automation-tool-scraper/src/main.py:160-214 | every record of a run is well formed: both statuses "Error" or neither; a success has statuses from the closed sets and a non-empty name, and its message status is skipped-disabled exactly when messaging is off, skipped-no-connection exactly when a required request was not sent, delivered exactly when attempted live and simulated exactly when attempted in dry-run |
| Pipeline.DryRunPausesOnlyForRateLimit | linkedin-automation-tool-scraper/src/main.py:160-214 | in dry-run mode every pause of a run is the scraper's rate-limit pause |
| Pipeline.DryRunRowPauses | linkedin-automation-tool-scraper/src/main.py:168-199 | in dry-run mode one row pauses at most once, for the rate limit |
| Pipeline.SucceedsWithName | linkedin-automation-tool-scraper/src/main.py:168-199 | a row with a URL and a name of its own gets a success record carrying the stripped name whenever no configured pause is negative |
| Pipeline.DryRunLeadRecord | linkedin-automation-tool-scraper/src/main.py:168-199 | a nameless row whose URL ends in a numeric id, in dry-run under the cap with messaging enabled: named `Lead <id>`, request sent, message simulated |
| Pipeline.BlankNameGivesErrorRecord | linkedin-automation-tool-scraper/src/main.py:181-214 | a whitespace-only name gives the row's error record whatever the connection stage did, keeping its count and pauses |
| Pipeline.HyphenSlugGivesErrorRecord | linkedin-automation-tool-scraper/src/main.py:168-214 | a nameless row whose URL ends in `/-` gets an error record although its request was counted |

## Left out

- Reading the settings file, the CSV file and the cookie variable; writing
  the JSON report; argument parsing; logging; the exit codes. The settings
  are a typed value, the CSV reader's rows and the cookie jar are parameters,
  and the report is the returned record list. The exit code 1 on a missing
  file or cookie is not modelled.
- `int()`, `float()` and `bool()` conversion of the settings values: the
  settings are already typed. A conversion error, which aborts the run before
  any row, is not modelled.
- Floating point: delays are exact reals, so `0.2` per request is exact.
  Python rounds in binary.
- `datetime.utcnow().isoformat()`: the clock is a parameter. Row `i` of the
  limited list is stamped with `clock(i) + "Z"`.
- The actual waiting of `time.sleep`: only the durations are returned.
  - A negative duration raises.
  - NaN and oversized durations are not modelled.
- Unicode: strings are treated as ASCII for `strip`, `split`, `title`,
  `isdigit` and `lower`.
- `urlparse`:
  - No percent-decoding.
  - No `;params` split.
  - Of the host checks, only the bracket-balance check that raises
    "Invalid IPv6 URL" is modelled. The validation of a bracketed host
    (`_check_bracketed_host`) is not: such a host is taken as written.
  - The cleaning `urlsplit` does first is modelled (`Urls.Sanitize`): it
    drops leading C0 control characters and spaces and deletes every tab, CR
    and LF.
  - `unquote_plus` turns `+` into a space and decodes no `%` escapes.
- DeriveNameFromUrl: `urlparse` also splits `;params` off an http(s) path;
  the model keeps them in the last segment, so a URL ending in `;x` is named
  from the segment with `;x`.
- `str.format`:
  - Conversions (`!r`), format specs (`:>10`), attribute and index fields
    (`{a.b}`, `{a[0]}`) and nested fields are treated as failures. Python
    renders some of them, but this only changes whether the fallback
    sentence is used.
  - A `}` inside a field is also treated as a failure.
- `csv.DictReader` values that are not strings (`None` for a short row, a
  list for extra cells): rows map column names to strings.
- `ScraperConfig.request_timeout` is parsed but never read; the model only
  stores it.
- The cookie jar is passed through every stage and never read, as in the
  source.
- The `if not path_parts` branch (navigator_scraper.py:37-38) has no
  counterpart. It is dead code, because `split` never returns an empty list
  (`Strings.Split`).
