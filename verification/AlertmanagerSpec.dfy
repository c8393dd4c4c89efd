/** Alertmanager configuration as users write it. Secrets are named, not held. */
module AlertmanagerSpec {
  import opened Wrappers
  import opened Texts
  import opened Credentials

  type Str = Option<Text>
  type Bool = Option<bool>
  type Secret = Option<SecretRef>

  datatype Global = Global(
    resolveTimeout: Str, smtpSmarthost: Str, smtpFrom: Str, smtpAuthUsername: Str, smtpAuthPassword: Secret,
    smtpAuthIdentity: Str, smtpRequireTLS: Bool, slackAPIURL: Secret, pagerdutyURL: Str, opsGenieAPIURL: Str,
    opsGenieAPIKey: Secret)

  datatype ChildRoute = ChildRoute(
    receiver: Str, groupBy: seq<Text>, groupWait: Str, groupInterval: Str, repeatInterval: Str, continue_: Bool,
    matchers: seq<Text>, muteTimeIntervals: seq<Text>, activeTimeIntervals: seq<Text>)

  datatype Route = Route(
    receiver: Str, groupBy: seq<Text>, groupWait: Str, groupInterval: Str, repeatInterval: Str, continue_: Bool,
    matchers: seq<Text>, muteTimeIntervals: seq<Text>, activeTimeIntervals: seq<Text>, childRoute: seq<ChildRoute>)

  datatype Email = Email(
    to: Str, from: Str, smarthost: Str, authUsername: Str, authPassword: Secret, html: Str, text: Str,
    requireTLS: Bool, sendResolved: Bool)

  datatype Slack = Slack(
    apiURL: Secret, channel: Str, username: Str, iconEmoji: Str, iconURL: Str, title: Str, text: Str,
    sendResolved: Bool)

  datatype Pagerduty = Pagerduty(
    serviceKey: Secret, routingKey: Secret, url: Str, description: Str, severity: Str, sendResolved: Bool)

  datatype HTTPBasicAuth = HTTPBasicAuth(username: Str, password: Secret)

  datatype HTTPConfig = HTTPConfig(basicAuth: Option<HTTPBasicAuth>, bearerToken: Secret)

  datatype Webhook = Webhook(url: Str, sendResolved: Bool, httpConfig: Option<HTTPConfig>)

  datatype OpsGenie = OpsGenie(apiKey: Secret, apiURL: Str, message: Str, priority: Str, sendResolved: Bool)

  datatype Receiver = Receiver(
    name: Text, emails: seq<Email>, slacks: seq<Slack>, pagerduties: seq<Pagerduty>, webhooks: seq<Webhook>,
    opsGenies: seq<OpsGenie>)

  datatype InhibitRule = InhibitRule(sourceMatchers: seq<Text>, targetMatchers: seq<Text>, equal: seq<Text>)

  datatype TimeRange = TimeRange(startTime: Str, endTime: Str)

  datatype TimeInterval = TimeInterval(
    times: seq<TimeRange>, weekdays: seq<Text>, daysOfMonth: seq<Text>, months: seq<Text>, years: seq<Text>)

  datatype NamedIntervals = NamedIntervals(name: Text, timeIntervals: seq<TimeInterval>)

  /** ConfigParameters */
  datatype Parameters = Parameters(
    orgID: Str, global: Option<Global>, route: Option<Route>, receivers: seq<Receiver>, inhibitRules: seq<InhibitRule>,
    timeIntervals: seq<NamedIntervals>, templates: seq<Text>, templatesFiles: map<Text, Text>)
}
