/** The translation position by position, and the documents it can yield.

    The predicates here state what is proved and are not used by the model. */
module AlertmanagerCorrespondence {
  import opened Wrappers
  import opened Texts
  import S = AlertmanagerSpec
  import W = AlertmanagerWire
  import T = AlertmanagerTranslation
  import R = AlertmanagerRetraction

  // --------------------------------------------------------------------------------------------------
  // What is sent for what

  /** An optional text and the text sent for it. */
  ghost predicate Shows(s: S.Str, t: Text) {
    match s
    case None => t == ""
    case Some(text) => t == text
  }

  ghost predicate ShowsFlag(b: S.Bool, flag: bool) {
    match b
    case None => !flag
    case Some(value) => flag == value
  }

  ghost predicate ShowsGlobal(g: S.Global, w: W.Global) {
    && Shows(g.resolveTimeout, w.resolveTimeout) && Shows(g.smtpSmarthost, w.smtpSmarthost)
    && Shows(g.smtpFrom, w.smtpFrom) && Shows(g.smtpAuthUsername, w.smtpAuthUsername)
    && Shows(g.smtpAuthIdentity, w.smtpAuthIdentity) && g.smtpRequireTLS == w.smtpRequireTLS
    && Shows(g.pagerdutyURL, w.pagerdutyURL) && Shows(g.opsGenieAPIURL, w.opsGenieAPIURL)
    && w.smtpAuthPassword == "" && w.slackAPIURL == "" && w.opsGenieAPIKey == ""
  }

  ghost predicate ShowsChildRoute(r: S.ChildRoute, w: W.Route) {
    && Shows(r.receiver, w.receiver) && r.groupBy == w.groupBy && Shows(r.groupWait, w.groupWait)
    && Shows(r.groupInterval, w.groupInterval) && Shows(r.repeatInterval, w.repeatInterval)
    && ShowsFlag(r.continue_, w.continue_) && r.matchers == w.matchers && r.muteTimeIntervals == w.muteTimeIntervals
    && r.activeTimeIntervals == w.activeTimeIntervals && w.routes == []
  }

  ghost predicate ShowsRoute(r: S.Route, w: W.Route) {
    && Shows(r.receiver, w.receiver) && r.groupBy == w.groupBy && Shows(r.groupWait, w.groupWait)
    && Shows(r.groupInterval, w.groupInterval) && Shows(r.repeatInterval, w.repeatInterval)
    && ShowsFlag(r.continue_, w.continue_) && r.matchers == w.matchers && r.muteTimeIntervals == w.muteTimeIntervals
    && r.activeTimeIntervals == w.activeTimeIntervals
    && |w.routes| == |r.childRoute|
    && forall i :: 0 <= i < |w.routes| ==> ShowsChildRoute(r.childRoute[i], w.routes[i])
  }

  ghost predicate ShowsEmail(e: S.Email, w: W.Email) {
    && Shows(e.to, w.to) && Shows(e.from, w.from) && Shows(e.smarthost, w.smarthost)
    && Shows(e.authUsername, w.authUsername) && Shows(e.html, w.html) && Shows(e.text, w.text)
    && e.requireTLS == w.requireTLS && ShowsFlag(e.sendResolved, w.sendResolved)
    && w.authPassword == "" && w.headers == map[]
  }

  ghost predicate ShowsSlack(s: S.Slack, w: W.Slack) {
    && Shows(s.channel, w.channel) && Shows(s.username, w.username) && Shows(s.iconEmoji, w.iconEmoji)
    && Shows(s.iconURL, w.iconURL) && Shows(s.title, w.title) && Shows(s.text, w.text)
    && ShowsFlag(s.sendResolved, w.sendResolved) && w.apiURL == ""
  }

  ghost predicate ShowsWebhook(h: S.Webhook, w: W.Webhook) {
    Shows(h.url, w.url) && ShowsFlag(h.sendResolved, w.sendResolved) && w.httpConfig == None
  }

  ghost predicate ShowsEmails(es: seq<S.Email>, ws: seq<W.Email>) {
    |ws| == |es| && forall i :: 0 <= i < |ws| ==> ShowsEmail(es[i], ws[i])
  }

  ghost predicate ShowsSlacks(ss: seq<S.Slack>, ws: seq<W.Slack>) {
    |ws| == |ss| && forall i :: 0 <= i < |ws| ==> ShowsSlack(ss[i], ws[i])
  }

  ghost predicate ShowsWebhooks(hs: seq<S.Webhook>, ws: seq<W.Webhook>) {
    |ws| == |hs| && forall i :: 0 <= i < |ws| ==> ShowsWebhook(hs[i], ws[i])
  }

  ghost predicate ShowsReceiver(r: S.Receiver, w: W.Receiver) {
    && r.name == w.name
    && ShowsEmails(r.emails, w.emails) && ShowsSlacks(r.slacks, w.slacks) && ShowsWebhooks(r.webhooks, w.webhooks)
    && w.pagerduties == [] && w.opsGenies == []
  }

  ghost predicate ShowsInhibitRule(r: S.InhibitRule, w: W.InhibitRule) {
    r.sourceMatchers == w.sourceMatchers && r.targetMatchers == w.targetMatchers && r.equal == w.equal
  }

  ghost predicate ShowsTimeRange(t: S.TimeRange, w: W.TimeRange) {
    Shows(t.startTime, w.startTime) && Shows(t.endTime, w.endTime)
  }

  ghost predicate ShowsTimeInterval(t: S.TimeInterval, w: W.TimeInterval) {
    && |w.times| == |t.times| && (forall i :: 0 <= i < |w.times| ==> ShowsTimeRange(t.times[i], w.times[i]))
    && t.weekdays == w.weekdays && t.daysOfMonth == w.daysOfMonth && t.months == w.months && t.years == w.years
  }

  ghost predicate ShowsIntervals(n: S.NamedIntervals, w: W.MuteTimeInterval) {
    && n.name == w.name && |w.timeIntervals| == |n.timeIntervals|
    && forall i :: 0 <= i < |w.timeIntervals| ==> ShowsTimeInterval(n.timeIntervals[i], w.timeIntervals[i])
  }

  ghost predicate ShowsReceivers(rs: seq<S.Receiver>, ws: seq<W.Receiver>) {
    |ws| == |rs| && forall i :: 0 <= i < |ws| ==> ShowsReceiver(rs[i], ws[i])
  }

  ghost predicate ShowsInhibitRules(rs: seq<S.InhibitRule>, ws: seq<W.InhibitRule>) {
    |ws| == |rs| && forall i :: 0 <= i < |ws| ==> ShowsInhibitRule(rs[i], ws[i])
  }

  ghost predicate ShowsAllIntervals(ns: seq<S.NamedIntervals>, ws: seq<W.MuteTimeInterval>) {
    |ws| == |ns| && forall i :: 0 <= i < |ws| ==> ShowsIntervals(ns[i], ws[i])
  }

  ghost predicate ShowsDocument(p: S.Parameters, w: W.Config) {
    && w.global.Some? == p.global.Some? && (p.global.Some? ==> ShowsGlobal(p.global.value, w.global.value))
    && w.route.Some? == p.route.Some? && (p.route.Some? ==> ShowsRoute(p.route.value, w.route.value))
    && ShowsReceivers(p.receivers, w.receivers) && ShowsInhibitRules(p.inhibitRules, w.inhibitRules)
    && ShowsAllIntervals(p.timeIntervals, w.muteTimeIntervals)
    && w.templates == p.templates
  }

  lemma RouteShown(r: S.Route)
    ensures ShowsRoute(r, T.Route(r))
  {
    forall i | 0 <= i < |r.childRoute|
      ensures ShowsChildRoute(r.childRoute[i], T.Route(r).routes[i])
    {
    }
  }

  lemma EmailsShown(es: seq<S.Email>)
    ensures ShowsEmails(es, Map(T.Email, es))
  {
  }

  lemma SlacksShown(ss: seq<S.Slack>)
    ensures ShowsSlacks(ss, Map(T.Slack, ss))
  {
  }

  lemma WebhooksShown(hs: seq<S.Webhook>)
    ensures ShowsWebhooks(hs, Map(T.Webhook, hs))
  {
  }

  lemma ReceiverShown(r: S.Receiver)
    ensures ShowsReceiver(r, T.Receiver(r))
  {
    EmailsShown(r.emails);
    SlacksShown(r.slacks);
    WebhooksShown(r.webhooks);
  }

  lemma ReceiversShown(rs: seq<S.Receiver>)
    ensures ShowsReceivers(rs, Map(T.Receiver, rs))
  {
    forall i | 0 <= i < |rs|
      ensures ShowsReceiver(rs[i], Map(T.Receiver, rs)[i])
    {
      ReceiverShown(rs[i]);
    }
  }

  lemma InhibitRulesShown(rs: seq<S.InhibitRule>)
    ensures ShowsInhibitRules(rs, Map(T.InhibitRule, rs))
  {
  }

  lemma AllIntervalsShown(ns: seq<S.NamedIntervals>)
    ensures ShowsAllIntervals(ns, Map(T.NamedIntervals, ns))
  {
    forall i | 0 <= i < |ns|
      ensures ShowsIntervals(ns[i], Map(T.NamedIntervals, ns)[i])
    {
      IntervalsShown(ns[i]);
    }
  }

  lemma TimeIntervalShown(t: S.TimeInterval)
    ensures ShowsTimeInterval(t, T.TimeInterval(t))
  {
  }

  lemma IntervalsShown(n: S.NamedIntervals)
    ensures ShowsIntervals(n, T.NamedIntervals(n))
  {
    forall i | 0 <= i < |n.timeIntervals|
      ensures ShowsTimeInterval(n.timeIntervals[i], T.NamedIntervals(n).timeIntervals[i])
    {
      TimeIntervalShown(n.timeIntervals[i]);
    }
  }

  /** Every field of the document sent holds what the spec has in that place, and every field that no place of the spec
      goes to is empty. */
  lemma SentExactly(p: S.Parameters)
    ensures var sent := T.Build(p);
      sent.templateFiles == p.templatesFiles && sent.document.Some? && ShowsDocument(p, sent.document.value)
  {
    if p.route.Some? {
      RouteShown(p.route.value);
    }
    ReceiversShown(p.receivers);
    InhibitRulesShown(p.inhibitRules);
    AllIntervalsShown(p.timeIntervals);
  }

  // --------------------------------------------------------------------------------------------------
  // Which documents are sent at all

  ghost predicate PlainGlobal(w: W.Global) {
    w.smtpAuthPassword == "" && w.slackAPIURL == "" && w.opsGenieAPIKey == ""
  }

  ghost predicate PlainRoute(w: W.Route) {
    forall i :: 0 <= i < |w.routes| ==> w.routes[i].routes == []
  }

  ghost predicate PlainEmail(w: W.Email) {
    w.authPassword == "" && w.headers == map[]
  }

  ghost predicate PlainEmails(ws: seq<W.Email>) {
    forall i :: 0 <= i < |ws| ==> PlainEmail(ws[i])
  }

  ghost predicate PlainSlacks(ws: seq<W.Slack>) {
    forall i :: 0 <= i < |ws| ==> ws[i].apiURL == ""
  }

  ghost predicate PlainWebhooks(ws: seq<W.Webhook>) {
    forall i :: 0 <= i < |ws| ==> ws[i].httpConfig == None
  }

  ghost predicate PlainReceiver(w: W.Receiver) {
    && PlainEmails(w.emails) && PlainSlacks(w.slacks) && PlainWebhooks(w.webhooks)
    && w.pagerduties == [] && w.opsGenies == []
  }

  ghost predicate PlainReceivers(ws: seq<W.Receiver>) {
    forall i :: 0 <= i < |ws| ==> PlainReceiver(ws[i])
  }

  /** A document without anything that no spec can say: no secrets, no headers, no HTTP settings, no PagerDuty or
      OpsGenie receivers, and no routes below child routes, at any position. */
  ghost predicate Sayable(c: W.UserConfig) {
    && c.document.Some?
    && (c.document.value.global.Some? ==> PlainGlobal(c.document.value.global.value))
    && (c.document.value.route.Some? ==> PlainRoute(c.document.value.route.value))
    && PlainReceivers(c.document.value.receivers)
  }

  /** Lists are rebuilt if their elements are. */
  lemma ListRebuilds<A, B>(build: A -> B, read: B -> A, ws: seq<B>)
    requires forall i :: 0 <= i < |ws| ==> build(read(ws[i])) == ws[i]
    ensures Map(build, Map(read, ws)) == ws
  {
  }

  lemma RouteRebuilds(w: W.Route)
    requires PlainRoute(w)
    ensures T.Route(R.ReadRoute(w)) == w
  {
    forall i | 0 <= i < |w.routes|
      ensures T.ChildRoute(R.ReadChildRoute(w.routes[i])) == w.routes[i]
    {
    }
    ListRebuilds(T.ChildRoute, R.ReadChildRoute, w.routes);
  }

  lemma EmailsRebuild(ws: seq<W.Email>)
    requires PlainEmails(ws)
    ensures Map(T.Email, Map(R.ReadEmail, ws)) == ws
  {
    ListRebuilds(T.Email, R.ReadEmail, ws);
  }

  lemma SlacksRebuild(ws: seq<W.Slack>)
    requires PlainSlacks(ws)
    ensures Map(T.Slack, Map(R.ReadSlack, ws)) == ws
  {
    ListRebuilds(T.Slack, R.ReadSlack, ws);
  }

  lemma WebhooksRebuild(ws: seq<W.Webhook>)
    requires PlainWebhooks(ws)
    ensures Map(T.Webhook, Map(R.ReadWebhook, ws)) == ws
  {
    ListRebuilds(T.Webhook, R.ReadWebhook, ws);
  }

  lemma ReceiverRebuilds(w: W.Receiver)
    requires PlainReceiver(w)
    ensures T.Receiver(R.ReadReceiver(w)) == w
  {
    EmailsRebuild(w.emails);
    SlacksRebuild(w.slacks);
    WebhooksRebuild(w.webhooks);
  }

  lemma ReceiversRebuild(ws: seq<W.Receiver>)
    requires PlainReceivers(ws)
    ensures Map(T.Receiver, Map(R.ReadReceiver, ws)) == ws
  {
    forall i | 0 <= i < |ws|
      ensures T.Receiver(R.ReadReceiver(ws[i])) == ws[i]
    {
      ReceiverRebuilds(ws[i]);
    }
    ListRebuilds(T.Receiver, R.ReadReceiver, ws);
  }

  lemma TimeIntervalRebuilds(w: W.TimeInterval)
    ensures T.TimeInterval(R.ReadTimeInterval(w)) == w
  {
    ListRebuilds(T.TimeRange, R.ReadTimeRange, w.times);
  }

  lemma IntervalsRebuild(w: W.MuteTimeInterval)
    ensures T.NamedIntervals(R.ReadNamedIntervals(w)) == w
  {
    forall i | 0 <= i < |w.timeIntervals|
      ensures T.TimeInterval(R.ReadTimeInterval(w.timeIntervals[i])) == w.timeIntervals[i]
    {
      TimeIntervalRebuilds(w.timeIntervals[i]);
    }
    ListRebuilds(T.TimeInterval, R.ReadTimeInterval, w.timeIntervals);
  }

  lemma AllIntervalsRebuild(ws: seq<W.MuteTimeInterval>)
    ensures Map(T.NamedIntervals, Map(R.ReadNamedIntervals, ws)) == ws
  {
    forall i | 0 <= i < |ws|
      ensures T.NamedIntervals(R.ReadNamedIntervals(ws[i])) == ws[i]
    {
      IntervalsRebuild(ws[i]);
    }
    ListRebuilds(T.NamedIntervals, R.ReadNamedIntervals, ws);
  }

  lemma OptionsRebuild(w: W.Config)
    requires w.global.Some? ==> PlainGlobal(w.global.value)
    requires w.route.Some? ==> PlainRoute(w.route.value)
    ensures T.MapOption(T.Global, T.MapOption(R.ReadGlobal, w.global)) == w.global
    ensures T.MapOption(T.Route, T.MapOption(R.ReadRoute, w.route)) == w.route
  {
    if w.route.Some? {
      RouteRebuilds(w.route.value);
    }
  }

  /** What is read of a sayable document is a spec that it is sent for. */
  lemma SayableRebuilds(c: W.UserConfig)
    requires Sayable(c)
    ensures T.Build(R.Read(c)) == c
  {
    var w := c.document.value;
    OptionsRebuild(w);
    ReceiversRebuild(w.receivers);
    ListRebuilds(T.InhibitRule, R.ReadInhibitRule, w.inhibitRules);
    AllIntervalsRebuild(w.muteTimeIntervals);
  }

  lemma BuildIsSayable(p: S.Parameters)
    ensures Sayable(T.Build(p))
  {
    SentExactly(p);
  }

  /** The documents that are sent for some spec are exactly the sayable ones. */
  lemma ImageExactly(c: W.UserConfig)
    ensures Sayable(c) <==> exists p :: T.Build(p) == c
  {
    if Sayable(c) {
      SayableRebuilds(c);
    }
    if p :| T.Build(p) == c {
      BuildIsSayable(p);
    }
  }
}
