/** Alertmanager configuration as it is sent: absent strings are empty, absent flags false. */
module AlertmanagerWire {
  import opened Wrappers
  import opened Texts

  datatype Global = Global(
    resolveTimeout: Text, smtpSmarthost: Text, smtpFrom: Text, smtpAuthUsername: Text, smtpAuthPassword: Text,
    smtpAuthIdentity: Text, smtpRequireTLS: Option<bool>, slackAPIURL: Text, pagerdutyURL: Text, opsGenieAPIURL: Text,
    opsGenieAPIKey: Text)

  datatype Route = Route(
    receiver: Text, groupBy: seq<Text>, groupWait: Text, groupInterval: Text, repeatInterval: Text, continue_: bool,
    matchers: seq<Text>, muteTimeIntervals: seq<Text>, activeTimeIntervals: seq<Text>, routes: seq<Route>)

  datatype Email = Email(
    to: Text, from: Text, smarthost: Text, authUsername: Text, authPassword: Text, headers: map<Text, Text>, html: Text,
    text: Text, requireTLS: Option<bool>, sendResolved: bool)

  datatype Slack = Slack(
    apiURL: Text, channel: Text, username: Text, iconEmoji: Text, iconURL: Text, title: Text, text: Text,
    sendResolved: bool)

  datatype Pagerduty = Pagerduty(
    serviceKey: Text, routingKey: Text, url: Text, description: Text, severity: Text, sendResolved: bool)

  datatype BasicAuth = BasicAuth(username: Text, password: Text)

  datatype HTTPClientConfig = HTTPClientConfig(basicAuth: Option<BasicAuth>, bearerToken: Text)

  datatype Webhook = Webhook(url: Text, sendResolved: bool, httpConfig: Option<HTTPClientConfig>)

  datatype OpsGenie = OpsGenie(apiKey: Text, apiURL: Text, message: Text, priority: Text, sendResolved: bool)

  datatype Receiver = Receiver(
    name: Text, emails: seq<Email>, slacks: seq<Slack>, pagerduties: seq<Pagerduty>, webhooks: seq<Webhook>,
    opsGenies: seq<OpsGenie>)

  datatype InhibitRule = InhibitRule(sourceMatchers: seq<Text>, targetMatchers: seq<Text>, equal: seq<Text>)

  datatype TimeRange = TimeRange(startTime: Text, endTime: Text)

  datatype TimeInterval = TimeInterval(
    times: seq<TimeRange>, weekdays: seq<Text>, daysOfMonth: seq<Text>, months: seq<Text>, years: seq<Text>)

  datatype MuteTimeInterval = MuteTimeInterval(name: Text, timeIntervals: seq<TimeInterval>)

  datatype Config = Config(
    global: Option<Global>, route: Option<Route>, receivers: seq<Receiver>, inhibitRules: seq<InhibitRule>,
    muteTimeIntervals: seq<MuteTimeInterval>, templates: seq<Text>)

  /** AlertmanagerUserConfig; the document is the configuration itself, or None for an empty text. */
  datatype UserConfig = UserConfig(templateFiles: map<Text, Text>, document: Option<Config>)
}
