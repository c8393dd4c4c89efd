/** buildAlertmanagerConfig, and exactly what it forgets. */
module AlertmanagerTranslation {
  import opened Wrappers
  import opened Texts
  import S = AlertmanagerSpec
  import W = AlertmanagerWire

  function PtrToStr(s: Option<Text>): Text {
    s.GetOr("")
  }

  function PtrToBool(b: Option<bool>): bool {
    b.GetOr(false)
  }

  // --------------------------------------------------------------------------------------------------
  // The translation

  function Global(g: S.Global): W.Global {
    W.Global(PtrToStr(g.resolveTimeout), PtrToStr(g.smtpSmarthost), PtrToStr(g.smtpFrom),
             PtrToStr(g.smtpAuthUsername), "", PtrToStr(g.smtpAuthIdentity), g.smtpRequireTLS, "",
             PtrToStr(g.pagerdutyURL), PtrToStr(g.opsGenieAPIURL), "")
  }

  function ChildRoute(r: S.ChildRoute): W.Route {
    W.Route(PtrToStr(r.receiver), r.groupBy, PtrToStr(r.groupWait), PtrToStr(r.groupInterval),
            PtrToStr(r.repeatInterval), PtrToBool(r.continue_), r.matchers, r.muteTimeIntervals,
            r.activeTimeIntervals, [])
  }

  function Route(r: S.Route): W.Route {
    W.Route(PtrToStr(r.receiver), r.groupBy, PtrToStr(r.groupWait), PtrToStr(r.groupInterval),
            PtrToStr(r.repeatInterval), PtrToBool(r.continue_), r.matchers, r.muteTimeIntervals, r.activeTimeIntervals,
            Map(ChildRoute, r.childRoute))
  }

  function Email(e: S.Email): W.Email {
    W.Email(PtrToStr(e.to), PtrToStr(e.from), PtrToStr(e.smarthost), PtrToStr(e.authUsername), "", map[],
            PtrToStr(e.html), PtrToStr(e.text), e.requireTLS, PtrToBool(e.sendResolved))
  }

  function Slack(s: S.Slack): W.Slack {
    W.Slack("", PtrToStr(s.channel), PtrToStr(s.username), PtrToStr(s.iconEmoji), PtrToStr(s.iconURL),
            PtrToStr(s.title), PtrToStr(s.text), PtrToBool(s.sendResolved))
  }

  function Webhook(w: S.Webhook): W.Webhook {
    W.Webhook(PtrToStr(w.url), PtrToBool(w.sendResolved), None)
  }

  function Receiver(r: S.Receiver): W.Receiver {
    W.Receiver(r.name, Map(Email, r.emails), Map(Slack, r.slacks), [], Map(Webhook, r.webhooks), [])
  }

  function InhibitRule(i: S.InhibitRule): W.InhibitRule {
    W.InhibitRule(i.sourceMatchers, i.targetMatchers, i.equal)
  }

  function TimeRange(t: S.TimeRange): W.TimeRange {
    W.TimeRange(PtrToStr(t.startTime), PtrToStr(t.endTime))
  }

  function TimeInterval(t: S.TimeInterval): W.TimeInterval {
    W.TimeInterval(Map(TimeRange, t.times), t.weekdays, t.daysOfMonth, t.months, t.years)
  }

  function NamedIntervals(n: S.NamedIntervals): W.MuteTimeInterval {
    W.MuteTimeInterval(n.name, Map(TimeInterval, n.timeIntervals))
  }

  function MapOption<A, B>(f: A -> B, o: Option<A>): Option<B> {
    match o
    case None => None
    case Some(a) => Some(f(a))
  }

  function Build(p: S.Parameters): W.UserConfig {
    W.UserConfig(p.templatesFiles,
      Some(W.Config(MapOption(Global, p.global), MapOption(Route, p.route), Map(Receiver, p.receivers),
                    Map(InhibitRule, p.inhibitRules), Map(NamedIntervals, p.timeIntervals), p.templates)))
  }

  // --------------------------------------------------------------------------------------------------
  // The loops that compute it

  method BuildReceiver(r: S.Receiver) returns (receiver: W.Receiver)
    ensures receiver == Receiver(r)
  {
    receiver := W.Receiver(r.name, [], [], [], [], []);
    for n := 0 to |r.emails|
      invariant receiver == W.Receiver(r.name, Map(Email, r.emails[..n]), [], [], [], [])
    {
      MapAppend(Email, r.emails, n);
      receiver := receiver.(emails := receiver.emails + [Email(r.emails[n])]);
    }
    assert r.emails[..|r.emails|] == r.emails;
    for n := 0 to |r.slacks|
      invariant receiver == W.Receiver(r.name, Map(Email, r.emails), Map(Slack, r.slacks[..n]), [], [], [])
    {
      MapAppend(Slack, r.slacks, n);
      receiver := receiver.(slacks := receiver.slacks + [Slack(r.slacks[n])]);
    }
    assert r.slacks[..|r.slacks|] == r.slacks;
    for n := 0 to |r.webhooks|
      invariant receiver ==
        W.Receiver(r.name, Map(Email, r.emails), Map(Slack, r.slacks), [], Map(Webhook, r.webhooks[..n]), [])
    {
      MapAppend(Webhook, r.webhooks, n);
      receiver := receiver.(webhooks := receiver.webhooks + [Webhook(r.webhooks[n])]);
    }
    assert r.webhooks[..|r.webhooks|] == r.webhooks;
  }

  method BuildReceivers(receivers: seq<S.Receiver>) returns (out: seq<W.Receiver>)
    ensures out == Map(Receiver, receivers)
  {
    out := [];
    for n := 0 to |receivers|
      invariant out == Map(Receiver, receivers[..n])
    {
      MapAppend(Receiver, receivers, n);
      var receiver := BuildReceiver(receivers[n]);
      out := out + [receiver];
    }
    assert receivers[..|receivers|] == receivers;
  }

  method BuildRoute(rc: Option<S.Route>) returns (route: Option<W.Route>)
    ensures route == MapOption(Route, rc)
  {
    if rc.None? {
      return None;
    }
    var r := rc.value;
    var out := Route(r.(childRoute := []));
    for n := 0 to |r.childRoute|
      invariant out == Route(r.(childRoute := [])).(routes := Map(ChildRoute, r.childRoute[..n]))
    {
      MapAppend(ChildRoute, r.childRoute, n);
      out := out.(routes := out.routes + [ChildRoute(r.childRoute[n])]);
    }
    assert r.childRoute[..|r.childRoute|] == r.childRoute;
    route := Some(out);
  }

  method BuildTimeInterval(interval: S.TimeInterval) returns (t: W.TimeInterval)
    ensures t == TimeInterval(interval)
  {
    t := W.TimeInterval([], interval.weekdays, interval.daysOfMonth, interval.months, interval.years);
    for n := 0 to |interval.times|
      invariant t == TimeInterval(interval).(times := Map(TimeRange, interval.times[..n]))
    {
      MapAppend(TimeRange, interval.times, n);
      t := t.(times := t.times + [TimeRange(interval.times[n])]);
    }
    assert interval.times[..|interval.times|] == interval.times;
  }

  method BuildMuteTimeIntervals(named: seq<S.NamedIntervals>) returns (out: seq<W.MuteTimeInterval>)
    ensures out == Map(NamedIntervals, named)
  {
    out := [];
    for n := 0 to |named|
      invariant out == Map(NamedIntervals, named[..n])
    {
      MapAppend(NamedIntervals, named, n);
      var mti := W.MuteTimeInterval(named[n].name, []);
      var intervals := named[n].timeIntervals;
      for m := 0 to |intervals|
        invariant mti == W.MuteTimeInterval(named[n].name, Map(TimeInterval, intervals[..m]))
      {
        MapAppend(TimeInterval, intervals, m);
        var t := BuildTimeInterval(intervals[m]);
        mti := mti.(timeIntervals := mti.timeIntervals + [t]);
      }
      assert intervals[..|intervals|] == intervals;
      out := out + [mti];
    }
    assert named[..|named|] == named;
  }

  method BuildAlertmanagerConfig(fp: S.Parameters) returns (config: W.UserConfig)
    ensures config == Build(fp)
  {
    var alertConfig := W.Config(None, None, [], [], [], fp.templates);
    if fp.global.Some? {
      alertConfig := alertConfig.(global := Some(Global(fp.global.value)));
    }
    var route := BuildRoute(fp.route);
    var receivers := BuildReceivers(fp.receivers);
    alertConfig := alertConfig.(route := route, receivers := receivers);
    for n := 0 to |fp.inhibitRules|
      invariant alertConfig ==
        Build(fp).document.value.(inhibitRules := Map(InhibitRule, fp.inhibitRules[..n]), muteTimeIntervals := [])
    {
      MapAppend(InhibitRule, fp.inhibitRules, n);
      alertConfig := alertConfig.(inhibitRules := alertConfig.inhibitRules + [InhibitRule(fp.inhibitRules[n])]);
    }
    assert fp.inhibitRules[..|fp.inhibitRules|] == fp.inhibitRules;
    var intervals := BuildMuteTimeIntervals(fp.timeIntervals);
    alertConfig := alertConfig.(muteTimeIntervals := intervals);
    config := W.UserConfig(fp.templatesFiles, Some(alertConfig));
  }
}
