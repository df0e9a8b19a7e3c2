/** The simulated message dispatcher: decides whether a follow-up message
    goes out, given the configuration and the connection outcome. */
module Messaging {
  import opened Common

  datatype MessageConfig = MessageConfig(
    enabled: bool,
    delayAfterConnectionSeconds: real,
    requireConnectionSent: bool)

  /** The configuration the dispatcher's constructor builds from the
      `automation` settings section. */
  function ConfigFrom(settings: AutomationSettings): (c: MessageConfig)
    ensures settings.messagingEnabled.None? ==> c.enabled
    ensures settings.delayAfterConnectionSeconds.None? ==> c.delayAfterConnectionSeconds == 2.0
    ensures settings.requireConnectionSent.None? ==> c.requireConnectionSent
    ensures settings.messagingEnabled.Some? ==> c.enabled == settings.messagingEnabled.value
    ensures settings.delayAfterConnectionSeconds.Some? ==> c.delayAfterConnectionSeconds == settings.delayAfterConnectionSeconds.value
    ensures settings.requireConnectionSent.Some? ==> c.requireConnectionSent == settings.requireConnectionSent.value
  {
    MessageConfig(
      GetOr(settings.messagingEnabled, true),
      GetOr(settings.delayAfterConnectionSeconds, 2.0),
      GetOr(settings.requireConnectionSent, true))
  }

  /** The dispatcher object: only its configuration and mode, never changed. */
  datatype MessageDispatcher = MessageDispatcher(config: MessageConfig, dryRun: bool) {

    /** A message is attempted when messaging is enabled and, if the
        configuration demands it, the connection request was sent. */
    predicate Attempts(connectionStatus: string) {
      config.enabled && (!config.requireConnectionSent || connectionStatus == RequestSent)
    }

    /** `send_message`. An attempted message pauses and is delivered in
        live mode (the pause raises when negative) and is simulated in
        dry-run mode; otherwise it is skipped, with the reason. The URL,
        the text and the cookies only reach the log. */
    function SendMessage(profileUrl: string, messageText: string, connectionStatus: string, cookies: CookieJar): (r: Result<Outcome, Fault>)
      ensures r.Err? <==> Attempts(connectionStatus) && !dryRun && config.delayAfterConnectionSeconds < 0.0
      ensures r.Err? ==> r.error == NegativeSleep
      ensures r.Ok? ==> IsMessageStatus(r.value.status)
      ensures r.Ok? ==> (r.value.status == SkippedDisabled <==> !config.enabled)
      ensures r.Ok? ==> (r.value.status == SkippedNoConnection <==> config.enabled && !Attempts(connectionStatus))
      ensures r.Ok? ==> (r.value.status == Delivered <==> Attempts(connectionStatus) && !dryRun)
      ensures r.Ok? ==> (r.value.status == Simulated <==> Attempts(connectionStatus) && dryRun)
      ensures r.Ok? ==> r.value.pauses == (if r.value.status == Delivered then [config.delayAfterConnectionSeconds] else [])
    {
      if !config.enabled then Ok(Outcome(SkippedDisabled, []))
      else if config.requireConnectionSent && connectionStatus != RequestSent then Ok(Outcome(SkippedNoConnection, []))
      else if !dryRun then
        if config.delayAfterConnectionSeconds < 0.0 then Err(NegativeSleep)
        else Ok(Outcome(Delivered, [config.delayAfterConnectionSeconds]))
      else Ok(Outcome(Simulated, []))
    }
  }

  /** The decision depends only on the connection status, and on that only
      when a sent connection is required; the URL, the text and the
      cookies never matter. */
  lemma {:induction false} SendMessageDependsOnStatusOnly(d: MessageDispatcher, url1: string, text1: string, status1: string, cookies1: CookieJar,
                                                        url2: string, text2: string, status2: string, cookies2: CookieJar)
    requires d.config.requireConnectionSent ==> (status1 == RequestSent <==> status2 == RequestSent)
    ensures d.SendMessage(url1, text1, status1, cookies1) == d.SendMessage(url2, text2, status2, cookies2)
  {
  }

  /** A skip does not depend on the mode: dry-run and live dispatchers with
      one configuration skip the same messages for the same reason. */
  lemma {:induction false} SkipsIgnoreMode(config: MessageConfig, status: string, url: string, text: string, cookies: CookieJar)
    requires !MessageDispatcher(config, true).Attempts(status)
    ensures MessageDispatcher(config, true).SendMessage(url, text, status, cookies)
         == MessageDispatcher(config, false).SendMessage(url, text, status, cookies)
  {
  }
}
