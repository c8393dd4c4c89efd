/** The kernel of the translation: what two specs may differ in and still be sent alike. */
module AlertmanagerRetraction {
  import opened Wrappers
  import opened Texts
  import S = AlertmanagerSpec
  import W = AlertmanagerWire
  import T = AlertmanagerTranslation

  // --------------------------------------------------------------------------------------------------
  // Erasure: an empty string or a false flag is as good as none; secrets, the HTTP settings of webhooks, and
  // the PagerDuty and OpsGenie lists are not sent; the tenant is not part of the document.

  function Str(s: S.Str): S.Str {
    if s == Some("") then None else s
  }

  function Flag(b: S.Bool): S.Bool {
    if b == Some(false) then None else b
  }

  function EraseGlobal(g: S.Global): S.Global {
    S.Global(Str(g.resolveTimeout), Str(g.smtpSmarthost), Str(g.smtpFrom), Str(g.smtpAuthUsername), None,
             Str(g.smtpAuthIdentity), g.smtpRequireTLS, None, Str(g.pagerdutyURL), Str(g.opsGenieAPIURL), None)
  }

  function EraseChildRoute(r: S.ChildRoute): S.ChildRoute {
    r.(receiver := Str(r.receiver), groupWait := Str(r.groupWait), groupInterval := Str(r.groupInterval),
       repeatInterval := Str(r.repeatInterval), continue_ := Flag(r.continue_))
  }

  function EraseRoute(r: S.Route): S.Route {
    r.(receiver := Str(r.receiver), groupWait := Str(r.groupWait), groupInterval := Str(r.groupInterval),
       repeatInterval := Str(r.repeatInterval), continue_ := Flag(r.continue_),
       childRoute := Map(EraseChildRoute, r.childRoute))
  }

  function EraseEmail(e: S.Email): S.Email {
    S.Email(Str(e.to), Str(e.from), Str(e.smarthost), Str(e.authUsername), None, Str(e.html), Str(e.text), e.requireTLS,
            Flag(e.sendResolved))
  }

  function EraseSlack(s: S.Slack): S.Slack {
    S.Slack(None, Str(s.channel), Str(s.username), Str(s.iconEmoji), Str(s.iconURL), Str(s.title), Str(s.text),
            Flag(s.sendResolved))
  }

  function EraseWebhook(w: S.Webhook): S.Webhook {
    S.Webhook(Str(w.url), Flag(w.sendResolved), None)
  }

  function EraseReceiver(r: S.Receiver): S.Receiver {
    S.Receiver(r.name, Map(EraseEmail, r.emails), Map(EraseSlack, r.slacks), [], Map(EraseWebhook, r.webhooks), [])
  }

  function EraseTimeRange(t: S.TimeRange): S.TimeRange {
    S.TimeRange(Str(t.startTime), Str(t.endTime))
  }

  function EraseTimeInterval(t: S.TimeInterval): S.TimeInterval {
    t.(times := Map(EraseTimeRange, t.times))
  }

  function EraseNamedIntervals(n: S.NamedIntervals): S.NamedIntervals {
    n.(timeIntervals := Map(EraseTimeInterval, n.timeIntervals))
  }

  function Erase(p: S.Parameters): S.Parameters {
    S.Parameters(None, T.MapOption(EraseGlobal, p.global), T.MapOption(EraseRoute, p.route),
                 Map(EraseReceiver, p.receivers), p.inhibitRules, Map(EraseNamedIntervals, p.timeIntervals),
                 p.templates, p.templatesFiles)
  }

  // --------------------------------------------------------------------------------------------------
  // Reading a sent configuration back

  function ReadStr(t: Text): S.Str {
    if t == "" then None else Some(t)
  }

  function ReadFlag(b: bool): S.Bool {
    if b then Some(true) else None
  }

  function ReadGlobal(g: W.Global): S.Global {
    S.Global(ReadStr(g.resolveTimeout), ReadStr(g.smtpSmarthost), ReadStr(g.smtpFrom), ReadStr(g.smtpAuthUsername),
             None, ReadStr(g.smtpAuthIdentity), g.smtpRequireTLS, None, ReadStr(g.pagerdutyURL),
             ReadStr(g.opsGenieAPIURL), None)
  }

  function ReadChildRoute(r: W.Route): S.ChildRoute {
    S.ChildRoute(ReadStr(r.receiver), r.groupBy, ReadStr(r.groupWait), ReadStr(r.groupInterval),
                 ReadStr(r.repeatInterval), ReadFlag(r.continue_), r.matchers, r.muteTimeIntervals,
                 r.activeTimeIntervals)
  }

  function ReadRoute(r: W.Route): S.Route {
    S.Route(ReadStr(r.receiver), r.groupBy, ReadStr(r.groupWait), ReadStr(r.groupInterval), ReadStr(r.repeatInterval),
            ReadFlag(r.continue_), r.matchers, r.muteTimeIntervals, r.activeTimeIntervals,
            Map(ReadChildRoute, r.routes))
  }

  function ReadEmail(e: W.Email): S.Email {
    S.Email(ReadStr(e.to), ReadStr(e.from), ReadStr(e.smarthost), ReadStr(e.authUsername), None, ReadStr(e.html),
            ReadStr(e.text), e.requireTLS, ReadFlag(e.sendResolved))
  }

  function ReadSlack(s: W.Slack): S.Slack {
    S.Slack(None, ReadStr(s.channel), ReadStr(s.username), ReadStr(s.iconEmoji), ReadStr(s.iconURL), ReadStr(s.title),
            ReadStr(s.text), ReadFlag(s.sendResolved))
  }

  function ReadWebhook(w: W.Webhook): S.Webhook {
    S.Webhook(ReadStr(w.url), ReadFlag(w.sendResolved), None)
  }

  function ReadReceiver(r: W.Receiver): S.Receiver {
    S.Receiver(r.name, Map(ReadEmail, r.emails), Map(ReadSlack, r.slacks), [], Map(ReadWebhook, r.webhooks), [])
  }

  function ReadInhibitRule(i: W.InhibitRule): S.InhibitRule {
    S.InhibitRule(i.sourceMatchers, i.targetMatchers, i.equal)
  }

  function ReadTimeRange(t: W.TimeRange): S.TimeRange {
    S.TimeRange(ReadStr(t.startTime), ReadStr(t.endTime))
  }

  function ReadTimeInterval(t: W.TimeInterval): S.TimeInterval {
    S.TimeInterval(Map(ReadTimeRange, t.times), t.weekdays, t.daysOfMonth, t.months, t.years)
  }

  function ReadNamedIntervals(n: W.MuteTimeInterval): S.NamedIntervals {
    S.NamedIntervals(n.name, Map(ReadTimeInterval, n.timeIntervals))
  }

  function Read(c: W.UserConfig): S.Parameters
    requires c.document.Some?
  {
    var d := c.document.value;
    S.Parameters(None, T.MapOption(ReadGlobal, d.global), T.MapOption(ReadRoute, d.route),
                 Map(ReadReceiver, d.receivers), Map(ReadInhibitRule, d.inhibitRules),
                 Map(ReadNamedIntervals, d.muteTimeIntervals), d.templates, c.templateFiles)
  }

  // --------------------------------------------------------------------------------------------------
  // Reading undoes sending up to erasure

  /** Reading back yields the erasure, and erasure is not noticed by sending. */
  ghost predicate Retracts<A(!new), B(!new)>(build: A -> B, read: B -> A, erase: A -> A) {
    forall a {:trigger build(a)} {:trigger erase(a)} :: read(build(a)) == erase(a) && build(erase(a)) == build(a)
  }

  /** Lists keep their length and order, so a retraction of elements is one of lists. */
  lemma ListRetracts<A(!new), B(!new)>(build: A -> B, read: B -> A, erase: A -> A, xs: seq<A>)
    requires Retracts(build, read, erase)
    ensures Map(read, Map(build, xs)) == Map(erase, xs)
    ensures Map(build, Map(erase, xs)) == Map(build, xs)
  {
    forall i | 0 <= i < |xs|
      ensures Map(read, Map(build, xs))[i] == Map(erase, xs)[i]
      ensures Map(build, Map(erase, xs))[i] == Map(build, xs)[i]
    {
      assert read(build(xs[i])) == erase(xs[i]) && build(erase(xs[i])) == build(xs[i]);
    }
  }

  lemma OptionRetracts<A(!new), B(!new)>(build: A -> B, read: B -> A, erase: A -> A, o: Option<A>)
    requires Retracts(build, read, erase)
    ensures T.MapOption(read, T.MapOption(build, o)) == T.MapOption(erase, o)
    ensures T.MapOption(build, T.MapOption(erase, o)) == T.MapOption(build, o)
  {
    if o.Some? {
      assert read(build(o.value)) == erase(o.value);
    }
  }

  lemma GlobalRetracts()
    ensures Retracts(T.Global, ReadGlobal, EraseGlobal)
  {
  }

  lemma ChildRouteRetracts()
    ensures Retracts(T.ChildRoute, ReadChildRoute, EraseChildRoute)
  {
  }

  lemma NotifiersRetract()
    ensures Retracts(T.Email, ReadEmail, EraseEmail)
    ensures Retracts(T.Slack, ReadSlack, EraseSlack)
    ensures Retracts(T.Webhook, ReadWebhook, EraseWebhook)
  {
  }

  lemma RouteRetracts()
    ensures Retracts(T.Route, ReadRoute, EraseRoute)
  {
    forall r
      ensures ReadRoute(T.Route(r)) == EraseRoute(r) && T.Route(EraseRoute(r)) == T.Route(r)
    {
      ChildRoutesRetract(r.childRoute);
    }
  }

  lemma ChildRoutesRetract(rs: seq<S.ChildRoute>)
    ensures Map(ReadChildRoute, Map(T.ChildRoute, rs)) == Map(EraseChildRoute, rs)
    ensures Map(T.ChildRoute, Map(EraseChildRoute, rs)) == Map(T.ChildRoute, rs)
  {
    ChildRouteRetracts();
    ListRetracts(T.ChildRoute, ReadChildRoute, EraseChildRoute, rs);
  }

  lemma ReceiverRetracts()
    ensures Retracts(T.Receiver, ReadReceiver, EraseReceiver)
  {
    NotifiersRetract();
    forall r
      ensures ReadReceiver(T.Receiver(r)) == EraseReceiver(r) && T.Receiver(EraseReceiver(r)) == T.Receiver(r)
    {
      ListRetracts(T.Email, ReadEmail, EraseEmail, r.emails);
      ListRetracts(T.Slack, ReadSlack, EraseSlack, r.slacks);
      ListRetracts(T.Webhook, ReadWebhook, EraseWebhook, r.webhooks);
    }
  }

  lemma TimeIntervalRetracts()
    ensures Retracts(T.TimeInterval, ReadTimeInterval, EraseTimeInterval)
  {
    assert Retracts(T.TimeRange, ReadTimeRange, EraseTimeRange);
    forall t
      ensures ReadTimeInterval(T.TimeInterval(t)) == EraseTimeInterval(t)
      ensures T.TimeInterval(EraseTimeInterval(t)) == T.TimeInterval(t)
    {
      ListRetracts(T.TimeRange, ReadTimeRange, EraseTimeRange, t.times);
    }
  }

  lemma NamedIntervalsRetract()
    ensures Retracts(T.NamedIntervals, ReadNamedIntervals, EraseNamedIntervals)
  {
    TimeIntervalRetracts();
    forall n
      ensures ReadNamedIntervals(T.NamedIntervals(n)) == EraseNamedIntervals(n)
      ensures T.NamedIntervals(EraseNamedIntervals(n)) == T.NamedIntervals(n)
    {
      ListRetracts(T.TimeInterval, ReadTimeInterval, EraseTimeInterval, n.timeIntervals);
    }
  }

  lemma InhibitRulesRetract(rules: seq<S.InhibitRule>)
    ensures Map(ReadInhibitRule, Map(T.InhibitRule, rules)) == rules
  {
  }

  lemma ListPartsRetract(p: S.Parameters)
    ensures Map(ReadReceiver, Map(T.Receiver, p.receivers)) == Map(EraseReceiver, p.receivers)
    ensures Map(T.Receiver, Map(EraseReceiver, p.receivers)) == Map(T.Receiver, p.receivers)
    ensures Map(ReadNamedIntervals, Map(T.NamedIntervals, p.timeIntervals)) == Map(EraseNamedIntervals, p.timeIntervals)
    ensures Map(T.NamedIntervals, Map(EraseNamedIntervals, p.timeIntervals)) == Map(T.NamedIntervals, p.timeIntervals)
  {
    ReceiverRetracts();
    ListRetracts(T.Receiver, ReadReceiver, EraseReceiver, p.receivers);
    NamedIntervalsRetract();
    ListRetracts(T.NamedIntervals, ReadNamedIntervals, EraseNamedIntervals, p.timeIntervals);
  }

  lemma OptionalPartsRetract(p: S.Parameters)
    ensures T.MapOption(ReadGlobal, T.MapOption(T.Global, p.global)) == T.MapOption(EraseGlobal, p.global)
    ensures T.MapOption(T.Global, T.MapOption(EraseGlobal, p.global)) == T.MapOption(T.Global, p.global)
    ensures T.MapOption(ReadRoute, T.MapOption(T.Route, p.route)) == T.MapOption(EraseRoute, p.route)
    ensures T.MapOption(T.Route, T.MapOption(EraseRoute, p.route)) == T.MapOption(T.Route, p.route)
  {
    GlobalRetracts();
    OptionRetracts(T.Global, ReadGlobal, EraseGlobal, p.global);
    RouteRetracts();
    OptionRetracts(T.Route, ReadRoute, EraseRoute, p.route);
  }

  /** Reading a sent configuration back gives the erased spec, and the erased spec is sent alike. */
  lemma TranslationRetracts(p: S.Parameters)
    ensures Read(T.Build(p)) == Erase(p)
    ensures T.Build(Erase(p)) == T.Build(p)
  {
    OptionalPartsRetract(p);
    ListPartsRetract(p);
    InhibitRulesRetract(p.inhibitRules);
  }

  /** Two specs are sent alike exactly when they erase alike. */
  lemma KernelExactly(p: S.Parameters, q: S.Parameters)
    ensures T.Build(p) == T.Build(q) <==> Erase(p) == Erase(q)
  {
    TranslationRetracts(p);
    TranslationRetracts(q);
  }
}
