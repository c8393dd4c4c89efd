/** The legacy GroupRecording controller: every operation goes through the annotation. */
module GroupRecordingController {
  import opened Wrappers
  import opened Texts
  import opened ExternalNames
  import opened RuleGroups
  import opened Headers
  import opened Requests
  import opened Ruler
  import opened Networks
  import opened RulerClient
  import opened Lifecycle
  import opened Managed

  class External {
    const client: Client
    const defaultOrgID: Text

    constructor (client: Client)
      ensures this.client == client && Valid()
    {
      this.client := client;
      defaultOrgID := client.orgID;
    }

    /** The organisation that resources default to is the client's. */
    predicate Valid() {
      defaultOrgID == client.orgID
    }

    method BuildRuleGroup(fp: Desired, name: Text) returns (rg: RuleGroup)
      requires fp.GroupRecordingSpec?
      ensures rg == Build(fp, name)
    {
      rg := RuleGroup(name, "", [], []);
      if fp.interval.Some? {
        rg := rg.(interval := fp.interval.value);
      }
      for n := 0 to |fp.rules|
        invariant rg == Build(fp, name).(rules := Map(Translate, fp.rules[..n]))
      {
        MapAppend(Translate, fp.rules, n);
        rg := rg.(rules := rg.rules + [Translate(fp.rules[n])]);
      }
      assert fp.rules[..|fp.rules|] == fp.rules;
    }

    /** Observe, once the group was asked for. */
    method Report(cr: Resource, got: Result<Option<RuleGroup>, Text>) returns (r: Result<Observation, Text>)
      requires cr.desired.GroupRecordingSpec?
      modifies cr`status
      ensures r == Reported(cr.desired, got)
      ensures cr.status ==
        StatusObserved(old(cr.status), cr.desired, cr.externalName, OrgID(cr.desired.orgID, defaultOrgID), got)
    {
      var orgID := OrgID(cr.desired.orgID, defaultOrgID);
      var namespace := Namespace(cr.desired);
      match got
      case Err(error) => r := Err(CANNOT_GET + error);
      case Ok(None) => r := Ok(Observation(false, false));
      case Ok(Some(rg)) =>
        cr.status := cr.status.(id := Some(Format(namespace, LegacyParse(cr.externalName))), orgID := Some(orgID),
                                namespace := Some(namespace), interval := Some(rg.interval), condition := Available);
        r := Ok(Observation(true, UpToDate(cr.desired, rg)));
    }

    method Observe(cr: Resource, remote: Remote, net: Network) returns (r: Result<Observation, Text>)
      requires Plausible(net)
      modifies cr`status, remote
      ensures !cr.desired.GroupRecordingSpec? ==> unchanged(remote)
      ensures cr.desired.GroupRecordingSpec? && cr.externalName == "" ==> unchanged(remote)
      ensures cr.desired.GroupRecordingSpec? && cr.externalName != "" ==> remote.requests == old(remote.requests) + 1
      ensures remote.groups == old(remote.groups)
      ensures !cr.desired.GroupRecordingSpec? ==> r == Err(WRONG_KIND) && cr.status == old(cr.status)
      ensures cr.desired.GroupRecordingSpec? ==>
        Observes(client, defaultOrgID, cr.desired, cr.externalName, remote.groups, net, old(cr.status), r, cr.status)
      ensures Valid() && cr.desired.GroupRecordingSpec? ==>
        Saw(client, cr.desired, cr.externalName, remote.groups, net, old(cr.status), r, cr.status)
    {
      if !cr.desired.GroupRecordingSpec? {
        return Err(WRONG_KIND);
      }
      var fp := cr.desired;
      var orgID := OrgID(fp.orgID, defaultOrgID);
      var namespace := Namespace(fp);
      if cr.externalName == "" {
        UnaskedObserves(client, defaultOrgID, fp, remote.groups, net, cr.status);
        return Ok(Observation(false, false));
      }
      var name := LegacyParse(cr.externalName);
      var got := GetRuleGroup(client, remote, namespace, name, orgID, net);
      ghost var t, before := TenantSent(remote.last), cr.status;
      r := Report(cr, got);
      ObservesFor(client, defaultOrgID, fp, cr.externalName, remote.groups, net, before, r, cr.status, t);
    }

    method Create(cr: Resource, remote: Remote, net: Network) returns (r: Result<(), Text>)
      requires Plausible(net)
      modifies cr`status, cr`externalName, remote
      ensures !cr.desired.GroupRecordingSpec? ==> r == Err(WRONG_KIND) && unchanged(cr) && unchanged(remote)
      ensures cr.desired.GroupRecordingSpec? ==>
        var name := WriteName(cr.desired, old(cr.externalName), cr.objectName, Action.Create);
        && r == WrappedResult(CANNOT_CREATE, SetResult(net))
        && cr.externalName == (if r.Ok? then Format(Namespace(cr.desired), name) else old(cr.externalName))
        && cr.status == StatusCreated(old(cr.status), cr.desired, OrgID(cr.desired.orgID, defaultOrgID), name, r.Ok?)
        && Applies(client, defaultOrgID, cr.desired, name, Some(Build(cr.desired, name)), net, old(remote.groups),
                   remote.groups)
      ensures cr.desired.GroupRecordingSpec? ==> (r.Ok? <==> net.Reliable?)
      ensures cr.desired.GroupRecordingSpec? ==> remote.requests == old(remote.requests) + 1
      ensures Valid() && cr.desired.GroupRecordingSpec? ==>
        var name := WriteName(cr.desired, old(cr.externalName), cr.objectName, Action.Create);
        && StandsFor(cr.desired, if old(cr.externalName) == "" then cr.objectName else old(cr.externalName), name)
        && Wrote(client, cr.desired, name, Some(Build(cr.desired, name)), net, old(remote.groups), remote.groups)
    {
      if !cr.desired.GroupRecordingSpec? {
        return Err(WRONG_KIND);
      }
      cr.status := cr.status.(condition := Creating);
      var fp := cr.desired;
      var orgID := OrgID(fp.orgID, defaultOrgID);
      var namespace := Namespace(fp);
      var name := cr.externalName;
      if name == "" {
        name := cr.objectName;
      }
      name := LegacyParse(name);
      var rg := BuildRuleGroup(fp, name);
      var written := SetRuleGroup(client, remote, namespace, orgID, rg, net);
      AppliesFor(client, defaultOrgID, fp, name, Some(Build(fp, name)), net,
                 old(remote.groups), remote.groups, TenantSent(remote.last));
      StandsForExactly(fp, if old(cr.externalName) == "" then cr.objectName else old(cr.externalName));
      if written.Err? {
        return Err(CANNOT_CREATE + written.error);
      }
      cr.externalName := Format(namespace, name);
      cr.status := cr.status.(id := Some(Format(namespace, name)), orgID := Some(orgID), namespace := Some(namespace));
      r := Ok(());
    }

    method Update(cr: Resource, remote: Remote, net: Network) returns (r: Result<(), Text>)
      requires Plausible(net)
      modifies remote
      ensures !cr.desired.GroupRecordingSpec? ==> r == Err(WRONG_KIND) && unchanged(remote)
      ensures cr.desired.GroupRecordingSpec? ==>
        var name := LegacyParse(cr.externalName);
        && r == WrappedResult(CANNOT_UPDATE, SetResult(net))
        && Applies(client, defaultOrgID, cr.desired, name, Some(Build(cr.desired, name)), net, old(remote.groups),
                   remote.groups)
      ensures cr.desired.GroupRecordingSpec? ==> (r.Ok? <==> net.Reliable?)
      ensures cr.desired.GroupRecordingSpec? ==> remote.requests == old(remote.requests) + 1
      ensures Valid() && cr.desired.GroupRecordingSpec? ==>
        var name := LegacyParse(cr.externalName);
        && StandsFor(cr.desired, cr.externalName, name)
        && Wrote(client, cr.desired, name, Some(Build(cr.desired, name)), net, old(remote.groups), remote.groups)
    {
      if !cr.desired.GroupRecordingSpec? {
        return Err(WRONG_KIND);
      }
      var fp := cr.desired;
      var rg := BuildRuleGroup(fp, LegacyParse(cr.externalName));
      var written := SetRuleGroup(client, remote, Namespace(fp), OrgID(fp.orgID, defaultOrgID), rg, net);
      AppliesFor(client, defaultOrgID, fp, LegacyParse(cr.externalName),
                 Some(Build(fp, LegacyParse(cr.externalName))), net,
                 old(remote.groups), remote.groups, TenantSent(remote.last));
      StandsForExactly(fp, cr.externalName);
      r := if written.Err? then Err(CANNOT_UPDATE + written.error) else Ok(());
    }

    method Delete(cr: Resource, remote: Remote, net: Network) returns (r: Result<(), Text>)
      requires Plausible(net)
      modifies cr`status, remote
      ensures !cr.desired.GroupRecordingSpec? ==> r == Err(WRONG_KIND) && unchanged(cr) && unchanged(remote)
      ensures cr.desired.GroupRecordingSpec? ==>
        && r == WrappedResult(CANNOT_DELETE, DeleteResult(net))
        && cr.status == old(cr.status).(condition := Deleting)
        && Applies(client, defaultOrgID, cr.desired, LegacyParse(cr.externalName), None, net, old(remote.groups),
                   remote.groups)
      ensures cr.desired.GroupRecordingSpec? ==> (r.Ok? <==> net.Reliable? || ReadsAbsent(net))
      ensures cr.desired.GroupRecordingSpec? ==> remote.requests == old(remote.requests) + 1
      ensures Valid() && cr.desired.GroupRecordingSpec? ==>
        var name := LegacyParse(cr.externalName);
        && StandsFor(cr.desired, cr.externalName, name)
        && Wrote(client, cr.desired, name, None, net, old(remote.groups), remote.groups)
    {
      if !cr.desired.GroupRecordingSpec? {
        return Err(WRONG_KIND);
      }
      cr.status := cr.status.(condition := Deleting);
      var fp := cr.desired;
      var name := LegacyParse(cr.externalName);
      var deleted := DeleteRuleGroup(client, remote, Namespace(fp), name, OrgID(fp.orgID, defaultOrgID), net);
      AppliesFor(client, defaultOrgID, fp, name, None, net,
                 old(remote.groups), remote.groups, TenantSent(remote.last));
      StandsForExactly(fp, cr.externalName);
      r := if deleted.Err? then Err(CANNOT_DELETE + deleted.error) else Ok(());
    }

    /** The first half of a pass: what the driver does with an observation is what the protocol decides, for one of
        the choices the headers allow. */
    method Look(cr: Resource, remote: Remote, net: Network) returns (next: Phase, ghost p: Provider)
      requires Valid() && Plausible(net) && !cr.finalised
      modifies cr`status, remote
      ensures remote.groups == old(remote.groups) && Chosen(client, p)
      ensures cr.desired.GroupRecordingSpec? ==>
        next == Step(WorldOf(p, cr, remote), Lifecycle.Observe(AnswerOf(net))).local.phase
      ensures next.Pending? ==> next.snapshot == cr.desired
    {
      ghost var before := cr.status;
      var observed := Observe(cr, remote, net);
      next := Idle;
      if observed.Ok? {
        var o := observed.value;
        next := if cr.deleting then (if o.resourceExists then Pending(Action.Delete, cr.desired) else Gone)
          else if !o.resourceExists then Pending(Action.Create, cr.desired)
          else if !o.resourceUpToDate then Pending(Action.Update, cr.desired)
          else Idle;
      }
      if cr.desired.GroupRecordingSpec? {
        p := ChoiceForReport(client, cr.desired, cr.externalName, remote.groups, net, before, observed, cr.status);
        DecisionIsStep(WorldOf(p, cr, remote).local, remote.groups, net);
        assert next == Decision(cr.desired, cr.deleting, observed);
      } else {
        p := SomeChoice(client);
      }
    }

    /** The second half: the write, and the annotation that is or is not persisted. */
    method Act(cr: Resource, remote: Remote, action: Action, net: Network, persisted: bool) returns (ghost p: Provider)
      requires Valid() && Plausible(net) && !cr.finalised
      modifies cr`status, cr`externalName, remote
      ensures Chosen(client, p)
      ensures cr.desired.GroupRecordingSpec? ==>
        WorldOf(p, cr, remote) ==
          Step(Deciding(old(WorldOf(p, cr, remote)), Pending(action, cr.desired)), Write(OutcomeOf(net, persisted)))
    {
      var before := cr.externalName;
      match action {
        case Create =>
          var _ := Create(cr, remote, net);
          if !persisted {
            cr.externalName := before;
          }
        case Update =>
          var _ := Update(cr, remote, net);
        case Delete =>
          var _ := Delete(cr, remote, net);
      }
      if cr.desired.GroupRecordingSpec? {
        ghost var name := WriteName(cr.desired, before, cr.objectName, action);
        ghost var g := if action.Delete? then None else Some(Build(cr.desired, name));
        p := ChoiceForWrite(client, cr.desired, name, g, net, old(remote.groups), remote.groups);
        WriteIsStep(Deciding(old(WorldOf(p, cr, remote)), Pending(action, cr.desired)), net, persisted);
      } else {
        p := SomeChoice(client);
      }
    }

    /** One pass of a driver that does what Observe dictates is two steps of the protocol, whatever the network does
        and whatever tenant headers are configured; the two requests may make different choices among these. */
    method Reconcile(cr: Resource, remote: Remote, get: Network, put: Network, persisted: bool)
      returns (ghost p: Provider, ghost q: Provider)
      requires Valid() && Plausible(get) && Plausible(put)
      modifies cr, remote
      ensures Chosen(client, p) && Chosen(client, q)
      ensures cr.desired.GroupRecordingSpec? ==>
        var looked := Step(old(WorldOf(p, cr, remote)), Lifecycle.Observe(AnswerOf(get)));
        WorldOf(q, cr, remote) == Step(ActingFor(looked, q), Write(OutcomeOf(put, persisted)))
    {
      p := SomeChoice(client);
      q := p;
      if cr.finalised {
        return;
      }
      var next;
      next, p := Look(cr, remote, get);
      q := p;
      HalfPasses(WorldOf(p, cr, remote), AnswerOf(get), OutcomeOf(put, persisted));
      assert WorldOf(p, cr, remote) == old(WorldOf(p, cr, remote));
      match next
      case Pending(action, _) => q := Act(cr, remote, action, put, persisted);
      case Gone => cr.finalised := true;
      case Idle =>
    }
  }
}
