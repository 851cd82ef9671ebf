/**
 * `loadConfig` as a function of the process environment: Desktop is always
 * on; each other channel is set when all of its variables are non-empty.
 */
module Config {
  import opened Wrappers
  import opened Types

  const TwilioAccountSid := "TWILIO_ACCOUNT_SID"
  const TwilioAuthToken := "TWILIO_AUTH_TOKEN"
  const TwilioFromNumber := "TWILIO_FROM_NUMBER"
  const TwilioToNumber := "TWILIO_TO_NUMBER"
  const SlackWebhookUrl := "SLACK_WEBHOOK_URL"
  const TeamsWebhookUrl := "TEAMS_WEBHOOK_URL"

  /** `process.env[key]` is truthy: the variable is set and not empty. */
  predicate IsSet(env: map<string, string>, key: string)
  {
    key in env && env[key] != ""
  }

  predicate SmsIsSet(env: map<string, string>)
  {
    IsSet(env, TwilioAccountSid) && IsSet(env, TwilioAuthToken)
    && IsSet(env, TwilioFromNumber) && IsSet(env, TwilioToNumber)
  }

  /** Starts from an empty record and fills in the channels one after another. */
  function LoadConfig(env: map<string, string>): (config: NotificationConfig)
    ensures config.desktop == Some(true)
    ensures config.sms.Some? <==> SmsIsSet(env)
    ensures config.sms.Some? ==> config.sms.value == SmsConfig(env[TwilioAccountSid], env[TwilioAuthToken],
                                                               env[TwilioFromNumber], env[TwilioToNumber])
    ensures config.slack.Some? <==> IsSet(env, SlackWebhookUrl)
    ensures config.slack.Some? ==> config.slack.value.webhookUrl == env[SlackWebhookUrl]
    ensures config.teams.Some? <==> IsSet(env, TeamsWebhookUrl)
    ensures config.teams.Some? ==> config.teams.value.webhookUrl == env[TeamsWebhookUrl]
  {
    var empty := NotificationConfig(None, None, None, None);
    var withDesktop := empty.(desktop := Some(true));
    var withSms :=
      if SmsIsSet(env) then
        withDesktop.(sms := Some(SmsConfig(env[TwilioAccountSid], env[TwilioAuthToken],
                                           env[TwilioFromNumber], env[TwilioToNumber])))
      else withDesktop;
    var withSlack :=
      if IsSet(env, SlackWebhookUrl) then withSms.(slack := Some(WebhookConfig(env[SlackWebhookUrl]))) else withSms;
    if IsSet(env, TeamsWebhookUrl) then withSlack.(teams := Some(WebhookConfig(env[TeamsWebhookUrl]))) else withSlack
  }

  /** Every block that is present has all of its fields non-empty: no partial or blank setting. */
  predicate WellFormed(config: NotificationConfig)
  {
    && (config.sms.Some? ==> var s := config.sms.value;
         s.accountSid != "" && s.authToken != "" && s.fromNumber != "" && s.toNumber != "")
    && (config.slack.Some? ==> config.slack.value.webhookUrl != "")
    && (config.teams.Some? ==> config.teams.value.webhookUrl != "")
  }

  lemma LoadConfigWellFormed(env: map<string, string>)
    ensures WellFormed(LoadConfig(env))
  {
  }

  /** Two environments that agree on a channel's variables give that channel the same setting. */
  lemma ChannelsIndependent(env1: map<string, string>, env2: map<string, string>)
    ensures (forall k :: k in {TwilioAccountSid, TwilioAuthToken, TwilioFromNumber, TwilioToNumber}
               ==> (k in env1 <==> k in env2) && (k in env1 ==> env1[k] == env2[k]))
            ==> LoadConfig(env1).sms == LoadConfig(env2).sms
    ensures ((SlackWebhookUrl in env1 <==> SlackWebhookUrl in env2)
             && (SlackWebhookUrl in env1 ==> env1[SlackWebhookUrl] == env2[SlackWebhookUrl]))
            ==> LoadConfig(env1).slack == LoadConfig(env2).slack
    ensures ((TeamsWebhookUrl in env1 <==> TeamsWebhookUrl in env2)
             && (TeamsWebhookUrl in env1 ==> env1[TeamsWebhookUrl] == env2[TeamsWebhookUrl]))
            ==> LoadConfig(env1).teams == LoadConfig(env2).teams
  {
  }

  /** An environment that sets exactly the variables a configuration needs. */
  function EnvironmentFor(config: NotificationConfig): map<string, string>
  {
    var sms := if config.sms.Some? then
      var s := config.sms.value;
      map[TwilioAccountSid := s.accountSid, TwilioAuthToken := s.authToken,
          TwilioFromNumber := s.fromNumber, TwilioToNumber := s.toNumber]
      else map[];
    var slack := if config.slack.Some? then map[SlackWebhookUrl := config.slack.value.webhookUrl] else map[];
    var teams := if config.teams.Some? then map[TeamsWebhookUrl := config.teams.value.webhookUrl] else map[];
    sms + slack + teams
  }

  /**
   * Every well-formed configuration with Desktop on is what some environment loads to:
   * LoadConfig reaches all of them and nothing else (LoadConfigWellFormed).
   */
  lemma LoadConfigReachesEveryWellFormed(config: NotificationConfig)
    requires config.desktop == Some(true) && WellFormed(config)
    ensures LoadConfig(EnvironmentFor(config)) == config
  {
    var env := EnvironmentFor(config);
    assert TwilioAccountSid != SlackWebhookUrl && TwilioAuthToken != SlackWebhookUrl;
    assert TwilioFromNumber != SlackWebhookUrl && TwilioToNumber != SlackWebhookUrl;
    assert TwilioAccountSid != TeamsWebhookUrl && TwilioAuthToken != TeamsWebhookUrl;
    assert TwilioFromNumber != TeamsWebhookUrl && TwilioToNumber != TeamsWebhookUrl;
    assert SlackWebhookUrl != TeamsWebhookUrl;
  }
}
