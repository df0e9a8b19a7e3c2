/** The simulated connection-request sender: a daily cap on requests and a
    pause before each live request that grows with the number sent. */
module Connections {
  import opened Common

  datatype AutomationConfig = AutomationConfig(
    maxDailyConnections: int,
    minDelaySeconds: real,
    maxDelaySeconds: real)

  /** The configuration the sender's constructor builds from the
      `automation` settings section. Its defaults (3.0 s and 7.5 s) are the
      constructor's, not the record's own field defaults (5.0 s and 15.0 s),
      which nothing uses. */
  function ConfigFrom(settings: AutomationSettings): (c: AutomationConfig)
    ensures settings.maxDailyConnections.None? ==> c.maxDailyConnections == 20
    ensures settings.minDelaySeconds.None? ==> c.minDelaySeconds == 3.0
    ensures settings.maxDelaySeconds.None? ==> c.maxDelaySeconds == 7.5
    ensures settings.maxDailyConnections.Some? ==> c.maxDailyConnections == settings.maxDailyConnections.value
    ensures settings.minDelaySeconds.Some? ==> c.minDelaySeconds == settings.minDelaySeconds.value
    ensures settings.maxDelaySeconds.Some? ==> c.maxDelaySeconds == settings.maxDelaySeconds.value
  {
    AutomationConfig(
      GetOr(settings.maxDailyConnections, 20),
      GetOr(settings.minDelaySeconds, 3.0),
      GetOr(settings.maxDelaySeconds, 7.5))
  }

  /** The most requests a sender will ever count: the daily maximum, or
      none at all when that maximum is not positive. */
  function Cap(config: AutomationConfig): nat {
    if config.maxDailyConnections > 0 then config.maxDailyConnections else 0
  }

  function MinReal(a: real, b: real): real {
    if a <= b then a else b
  }

  /** `_calculate_delay`: the minimum delay plus 0.2 s per request already
      sent, counting at most ten, and never more than the maximum delay.
      The result stays within both bounds: at most the maximum delay, at
      most two seconds above the minimum, at least the smaller of the two,
      and so non-negative when both configured delays are. */
  function RampDelay(config: AutomationConfig, sentCount: nat): (d: real)
    ensures d <= config.maxDelaySeconds
    ensures d <= config.minDelaySeconds + 2.0
    ensures d >= MinReal(config.minDelaySeconds, config.maxDelaySeconds)
    ensures config.minDelaySeconds >= 0.0 && config.maxDelaySeconds >= 0.0 ==> d >= 0.0
  {
    var growth := (if sentCount < 10 then sentCount else 10) as real * 0.2;
    MinReal(config.maxDelaySeconds, config.minDelaySeconds + growth)
  }

  /** The ramp never shrinks as more requests are sent, and stops growing
      after the tenth. */
  lemma RampDelayMonotone(config: AutomationConfig, a: nat, b: nat)
    requires a <= b
    ensures RampDelay(config, a) <= RampDelay(config, b)
    ensures a >= 10 ==> RampDelay(config, a) == RampDelay(config, b)
  {
  }

  /** One `send_connection` call made when `sentCount` requests have been
      counted: skipped at the cap; otherwise a request, preceded in live
      mode by the ramp pause, which raises when negative. */
  function Connect(config: AutomationConfig, dryRun: bool, sentCount: nat): (r: Result<Outcome, Fault>)
    ensures r.Err? <==> sentCount < config.maxDailyConnections && !dryRun && RampDelay(config, sentCount) < 0.0
    ensures r.Err? ==> r.error == NegativeSleep
    ensures r.Ok? ==> IsConnectionStatus(r.value.status)
    ensures r.Ok? ==> (r.value.status == RequestSent <==> sentCount < config.maxDailyConnections)
    ensures r.Ok? && (dryRun || r.value.status == SkippedLimit) ==> r.value.pauses == []
    ensures r.Ok? && !dryRun && r.value.status == RequestSent ==> r.value.pauses == [RampDelay(config, sentCount)]
  {
    if sentCount >= config.maxDailyConnections then Ok(Outcome(SkippedLimit, []))
    else if dryRun then Ok(Outcome(RequestSent, []))
    else
      var delay := RampDelay(config, sentCount);
      if delay < 0.0 then Err(NegativeSleep) else Ok(Outcome(RequestSent, [delay]))
  }

  /** The count after one call: one more exactly when a request was sent. */
  function NextCount(config: AutomationConfig, dryRun: bool, sentCount: nat): (r: nat)
    ensures sentCount <= r <= sentCount + 1
    ensures r == sentCount + 1 <==> Connect(config, dryRun, sentCount).Ok? && sentCount < config.maxDailyConnections
  {
    var r := Connect(config, dryRun, sentCount);
    if r.Ok? && r.value.status == RequestSent then sentCount + 1 else sentCount
  }

  /** A call never lifts the count past the cap. */
  lemma NextCountWithinCap(config: AutomationConfig, dryRun: bool, sentCount: nat)
    requires sentCount <= Cap(config)
    ensures sentCount <= NextCount(config, dryRun, sentCount) <= Cap(config)
    ensures NextCount(config, dryRun, sentCount) <= sentCount + 1
  {
  }

  /** The results of `n` successive calls, starting from `sentCount`. */
  function Calls(config: AutomationConfig, dryRun: bool, sentCount: nat, n: nat): (r: seq<Result<Outcome, Fault>>)
    ensures |r| == n
    decreases n
  {
    if n == 0 then []
    else [Connect(config, dryRun, sentCount)] + Calls(config, dryRun, NextCount(config, dryRun, sentCount), n - 1)
  }

  /** The count after `n` successive calls, starting from `sentCount`. */
  function CountAfter(config: AutomationConfig, dryRun: bool, sentCount: nat, n: nat): nat
    decreases n
  {
    if n == 0 then sentCount else CountAfter(config, dryRun, NextCount(config, dryRun, sentCount), n - 1)
  }

  /** No call can raise: in dry-run mode nothing sleeps, and non-negative
      configured delays give non-negative pauses. */
  predicate NeverSleepsNegative(config: AutomationConfig, dryRun: bool) {
    dryRun || (config.minDelaySeconds >= 0.0 && config.maxDelaySeconds >= 0.0)
  }

  /** The daily cap is enforced exactly: of successive calls from a fresh
      sender, the first `Cap` send a request and every later one is
      skipped, and the count ends at the smaller of the calls and the cap. */
  lemma {:induction false} CapEnforced(config: AutomationConfig, dryRun: bool, sentCount: nat, n: nat)
    requires NeverSleepsNegative(config, dryRun)
    requires sentCount <= Cap(config)
    ensures CountAfter(config, dryRun, sentCount, n) == if sentCount + n < Cap(config) then sentCount + n else Cap(config)
    ensures forall i :: 0 <= i < n ==> Calls(config, dryRun, sentCount, n)[i].Ok?
    ensures forall i :: 0 <= i < n ==>
              (Calls(config, dryRun, sentCount, n)[i].value.status == RequestSent <==> sentCount + i < Cap(config))
    decreases n
  {
    if n > 0 {
      var next := NextCount(config, dryRun, sentCount);
      CapEnforced(config, dryRun, next, n - 1);
      var cs := Calls(config, dryRun, sentCount, n);
      var rest := Calls(config, dryRun, next, n - 1);
      assert forall i :: 1 <= i < n ==> cs[i] == rest[i - 1];
      if sentCount < Cap(config) {
        assert next == sentCount + 1;
      } else {
        assert next == sentCount;
      }
    }
  }

  /** The sender object: its configuration and mode are fixed, and it
      counts the requests it has sent. */
  class ConnectionSender {
    const config: AutomationConfig
    const dryRun: bool
    var sentCount: nat

    ghost predicate Valid()
      reads this
    {
      sentCount <= Cap(config)
    }

    constructor(settings: AutomationSettings, dryRun: bool)
      ensures config == ConfigFrom(settings) && this.dryRun == dryRun
      ensures sentCount == 0 && Valid()
    {
      config := ConfigFrom(settings);
      this.dryRun := dryRun;
      sentCount := 0;
    }

    /** `send_connection`. The name and the cookies only reach the log. */
    method SendConnection(profileUrl: string, fullName: Option<string>, cookies: CookieJar) returns (r: Result<Outcome, Fault>)
      requires Valid()
      modifies this
      ensures Valid()
      ensures r == Connect(config, dryRun, old(sentCount))
      ensures sentCount == NextCount(config, dryRun, old(sentCount))
    {
      if sentCount >= config.maxDailyConnections {
        return Ok(Outcome(SkippedLimit, []));
      }
      var delay := RampDelay(config, sentCount);
      var pauses: seq<real> := [];
      if !dryRun {
        if delay < 0.0 {
          return Err(NegativeSleep);
        }
        pauses := [delay];
      }
      sentCount := sentCount + 1;
      return Ok(Outcome(RequestSent, pauses));
    }
  }
}
