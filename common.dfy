/** Shared vocabulary of the outreach pipeline: optional values, results,
    input rows, the failures a row can raise, the closed set of stage
    statuses and the typed settings the three stages are configured from. */
module Common {

  datatype Option<T> = None | Some(value: T)

  datatype Result<T, E> = Ok(value: T) | Err(error: E)

  /** One tabular input record: column name to cell text. A missing column
      and an empty cell are indistinguishable to every reader below. */
  type Row = map<string, string>

  /** The parsed cookie jar. It is passed through every stage and never read. */
  type CookieJar = map<string, string>

  /** The exceptions that can escape a stage while one row is processed. */
  datatype Fault =
    | MissingProfileUrl   // ValueError raised by enrichment for a blank URL
    | NegativeSleep       // ValueError raised by time.sleep for a negative duration
    | NoFirstName         // IndexError from split()[0] on a whitespace-only name
    | InvalidUrl          // ValueError raised by urlparse for unbalanced brackets

  /** `row.get(key) or ""` */
  function Field(row: Row, key: string): string {
    if key in row then row[key] else ""
  }

  /** `s or None`: the empty string becomes an absent value. */
  function NoneIfEmpty(s: string): Option<string> {
    if s == "" then None else Some(s)
  }

  /** `value or ""` for an optional string. */
  function OrEmpty(o: Option<string>): string {
    match o
    case Some(s) => s
    case None => ""
  }

  // Status strings, exactly as they appear in the output records.
  const RequestSent: string := "Request Sent"
  const SkippedLimit: string := "Skipped (limit reached)"
  const Delivered: string := "Delivered"
  const Simulated: string := "Simulated"
  const SkippedDisabled: string := "Skipped (disabled)"
  const SkippedNoConnection: string := "Skipped (no connection)"
  const ErrorStatus: string := "Error"

  predicate IsConnectionStatus(s: string) {
    s == RequestSent || s == SkippedLimit
  }

  predicate IsMessageStatus(s: string) {
    s == Delivered || s == Simulated || s == SkippedDisabled || s == SkippedNoConnection
  }

  /** "Error" is none of the stage statuses, and "Request Sent" is not the
      other connection status. */
  lemma StatusesDistinct()
    ensures !IsConnectionStatus(ErrorStatus) && !IsMessageStatus(ErrorStatus)
    ensures RequestSent != SkippedLimit
  {
    assert |ErrorStatus| == 5;
    assert |RequestSent| == 12 && |SkippedLimit| == 23;
    assert |Delivered| == 9 && |Simulated| == 9;
    assert |SkippedDisabled| == 18 && |SkippedNoConnection| == 23;
  }

  /** The `scraper` section of the settings document; None is a missing key. */
  datatype ScraperSettings = ScraperSettings(
    requestTimeout: Option<int>,
    rateLimitSeconds: Option<real>)

  /** The `automation` section of the settings document, read by the
      connection stage, the message stage and the orchestrator. */
  datatype AutomationSettings = AutomationSettings(
    maxDailyConnections: Option<int>,
    minDelaySeconds: Option<real>,
    maxDelaySeconds: Option<real>,
    messagingEnabled: Option<bool>,
    delayAfterConnectionSeconds: Option<real>,
    requireConnectionSent: Option<bool>,
    messageTemplate: Option<string>)

  datatype Settings = Settings(scraper: ScraperSettings, automation: AutomationSettings)

  /** What a stage call returns when it does not raise: its status string
      and the pauses (`time.sleep` durations, in seconds) it made, in order. */
  datatype Outcome = Outcome(status: string, pauses: seq<real>)

  /** `settings.get(key, default)` */
  function GetOr<T>(o: Option<T>, default: T): T {
    match o
    case Some(v) => v
    case None => default
  }
}
