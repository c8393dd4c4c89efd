/** The Alertmanager controller and the client operations it uses. */
module AlertmanagerController {
  import opened Wrappers
  import opened Texts
  import opened Headers
  import opened Requests
  import S = AlertmanagerSpec
  import W = AlertmanagerWire
  import opened AlertmanagerClient
  import T = AlertmanagerTranslation
  import L = Lifecycle
  import opened Networks
  import M = Managed
  import opened AlertmanagerLifecycle

  class Resource {
    const objectName: Text
    var desired: S.Parameters
    var externalName: Text
    var statusOrgID: Option<Text>
    var condition: M.Condition
    var deleting: bool
    var finalised: bool

    constructor (objectName: Text, desired: S.Parameters)
      ensures this.objectName == objectName && this.desired == desired && externalName == ""
      ensures statusOrgID == None && condition == M.Unset && !deleting && !finalised
    {
      this.objectName := objectName;
      this.desired := desired;
      externalName := "";
      statusOrgID := None;
      condition := M.Unset;
      deleting := false;
      finalised := false;
    }
  }

  const CANNOT_GET: Text := "cannot get alertmanager config: "
  const CANNOT_CREATE: Text := "cannot create alertmanager config: "
  const CANNOT_UPDATE: Text := "cannot update alertmanager config: "
  const CANNOT_DELETE: Text := "cannot delete alertmanager config: "

  /** Observe's report: any configuration with a document is up to date. */
  function Reported(got: Result<Option<W.UserConfig>, Text>): Result<M.Observation, Text> {
    match got
    case Err(error) => Err(CANNOT_GET + error)
    case Ok(config) =>
      var present := config.Some? && config.value.document.Some?;
      Ok(M.Observation(present, present))
  }

  function Learned(externalName: Text, docs: Documents, tenant: Text, net: Network): Result<Option<W.UserConfig>, Text>
  {
    if externalName == "" then Ok(None) else GetResult(docs, tenant, net)
  }

  /** The world of the protocol, read off a resource between passes and the remote state. */
  function WorldOf(p: L.Provider, cr: Resource, remote: Remote): World
    reads cr, remote
  {
    World(Local(p, cr.desired, cr.objectName, cr.externalName, cr.deleting, if cr.finalised then Gone else Idle),
          remote.documents)
  }

  function Deciding(w: World, phase: Phase): World {
    w.(local := w.local.(phase := phase))
  }

  function ActingFor(w: World, p: L.Provider): World {
    w.(local := w.local.(provider := p))
  }

  /** What the driver does with an observation; an error ends the pass. */
  function Decision(d: S.Parameters, deleting: bool, observed: Result<M.Observation, Text>): Phase {
    match observed
    case Err(_) => Idle
    case Ok(o) =>
      if deleting then (if o.resourceExists then Pending(L.Delete, d) else Gone)
      else if !o.resourceExists then Pending(L.Create, d)
      else if !o.resourceUpToDate then Pending(L.Update, d)
      else Idle
  }

  /** With the protocol's tenant, that is the protocol's decision. */
  lemma DecisionIsStep(l: Local, docs: Documents, net: Network)
    requires l.phase.Idle?
    ensures var tenant := Tenant(l.provider, l.desired);
      Decision(l.desired, l.deleting, Reported(Learned(l.externalName, docs, tenant, net))) ==
        AfterObserve(l, M.AnswerOf(net), Present(docs, tenant)).phase
  {
  }

  /** Observing changes the phase alone, and without a pending write the second half of a pass idles. */
  lemma HalfPasses(w: World, answer: L.Answer, o: L.Outcome)
    requires w.local.phase.Idle?
    ensures var w1 := Step(w, AlertmanagerLifecycle.Observe(answer));
      && w1 == Deciding(w, w1.local.phase)
      && (w1.local.phase.Pending? ==> w1.local.phase.snapshot == w.local.desired)
      && (!w1.local.phase.Pending? ==> Step(w1, Write(o)) == w1)
  {
  }

  /** A write that acts for the protocol's tenant is the protocol's. */
  lemma WriteIsStep(w: World, net: Network, persisted: bool)
    requires w.local.phase.Pending? && w.local.phase.snapshot == w.local.desired
    ensures var create, delete := w.local.phase.action.Create?, w.local.phase.action.Delete?;
      var name := if create && net.Reliable? && persisted then Org(w.local.provider, w.local.desired)
        else w.local.externalName;
      var config := if delete then None else Some(T.Build(w.local.desired));
      Step(w, Write(M.OutcomeOf(net, persisted))) ==
        World(w.local.(phase := Idle, externalName := name),
              Effect(w.documents, Tenant(w.local.provider, w.local.desired), config, net))
  {
  }

  // --------------------------------------------------------------------------------------------------
  // In other words: predicates that state what is proved, and are not used by the model

  /** A write or removal for a tenant the resource may act for: nothing happens if the request does not reach the
      server, and else that tenant has the document or none. */
  ghost predicate Wrote(c: Client, d: S.Parameters, config: Option<W.UserConfig>, net: Network, docs: Documents,
                        docs': Documents)
  {
    if !Reaches(net) then docs' == docs
    else exists tenant: Text ::
      && ActsFor(c.orgID, c.headers, d.orgID, tenant)
      && docs' == (if config.Some? then docs[tenant := config.value] else docs - {tenant})
  }

  /** What Observe reports: a document, if the tenant has one, is there and up to date. */
  ghost predicate Saw(c: Client, d: S.Parameters, externalName: Text, docs: Documents, net: Network,
                      r: Result<M.Observation, Text>)
  {
    if externalName == "" then r == Ok(M.Observation(false, false))
    else if net.Reliable? then
      exists tenant: Text ::
        && ActsFor(c.orgID, c.headers, d.orgID, tenant)
        && r == if tenant in docs && docs[tenant].document != None then Ok(M.Observation(true, true))
                else Ok(M.Observation(false, false))
    else
      r == if ReadsAbsent(net) then Ok(M.Observation(false, false))
           else Err("cannot get alertmanager config: " + ("failed to get alertmanager config: " + ErrorText(net)))
  }

  lemma EffectIsWritten(c: Client, d: S.Parameters, t: Text, config: Option<W.UserConfig>, net: Network,
                        docs: Documents)
    requires Plausible(net) && t in Tenants(OrgID(d.orgID, c.orgID), c.orgID, c.headers)
    ensures Wrote(c, d, config, net, docs, Effect(docs, t, config, net))
  {
    TenantsExactly(c.orgID, c.headers, d.orgID, t);
    NetworkExactly(net);
  }

  lemma ReportIsSeen(c: Client, d: S.Parameters, t: Text, externalName: Text, docs: Documents, net: Network)
    requires Plausible(net) && t in Tenants(OrgID(d.orgID, c.orgID), c.orgID, c.headers)
    ensures Saw(c, d, externalName, docs, net, Reported(Learned(externalName, docs, t, net)))
  {
    TenantsExactly(c.orgID, c.headers, d.orgID, t);
    AlertmanagerClient.GetExactly(docs, t, net);
  }

  lemma WritesReport(net: Network)
    requires Plausible(net)
    ensures M.WrappedResult(CANNOT_CREATE, SetResult(net)) ==
      if net.Reliable? then Ok(())
      else Err("cannot create alertmanager config: " + ("failed to set alertmanager config: " + ErrorText(net)))
    ensures M.WrappedResult(CANNOT_UPDATE, SetResult(net)) ==
      if net.Reliable? then Ok(())
      else Err("cannot update alertmanager config: " + ("failed to set alertmanager config: " + ErrorText(net)))
    ensures M.WrappedResult(CANNOT_DELETE, DeleteResult(net)) ==
      if net.Reliable? || ReadsAbsent(net) then Ok(())
      else Err("cannot delete alertmanager config: " + ("failed to delete alertmanager config: " + ErrorText(net)))
  {
    SetExactly(net);
    DeleteExactly(net);
  }

  class External {
    const client: Client
    const defaultOrgID: Text

    constructor (client: Client)
      ensures this.client == client && Valid()
    {
      this.client := client;
      defaultOrgID := client.orgID;
    }

    /** The organisation that resources default to is the client's. */
    predicate Valid() {
      defaultOrgID == client.orgID
    }

    ghost function TenantsFor(d: S.Parameters): set<Text> {
      Tenants(OrgID(d.orgID, defaultOrgID), client.orgID, client.headers)
    }

    /** A write or removal of the configuration for a tenant the spec may act for. */
    ghost predicate Applies(d: S.Parameters, config: Option<W.UserConfig>, net: Network, docs: Documents,
                            docs': Documents) {
      exists t :: t in TenantsFor(d) && docs' == Effect(docs, t, config, net)
    }

    /** What Observe may report of such a tenant's configuration. */
    ghost predicate Reports(d: S.Parameters, externalName: Text, docs: Documents, net: Network,
                            r: Result<M.Observation, Text>) {
      exists t :: t in TenantsFor(d) && r == Reported(Learned(externalName, docs, t, net))
    }

    lemma TenantsAreTheClients(d: S.Parameters)
      requires Valid()
      ensures TenantsFor(d) == Tenants(OrgID(d.orgID, client.orgID), client.orgID, client.headers)
    {
    }

    /** The choice behind a write or removal. */
    lemma ChoiceForWrite(d: S.Parameters, config: Option<W.UserConfig>, net: Network, docs: Documents, docs': Documents)
      returns (p: L.Provider)
      requires Valid() && Applies(d, config, net, docs, docs')
      ensures M.Chosen(client, p) && docs' == Effect(docs, Tenant(p, d), config, net)
    {
      var t :| t in TenantsFor(d) && docs' == Effect(docs, t, config, net);
      p := M.ChoiceOf(client, d.orgID, t);
    }

    /** The choice behind a report of Observe. */
    lemma ChoiceForReport(d: S.Parameters, externalName: Text, docs: Documents, net: Network,
                          r: Result<M.Observation, Text>)
      returns (p: L.Provider)
      requires Valid() && Reports(d, externalName, docs, net, r)
      ensures M.Chosen(client, p) && r == Reported(Learned(externalName, docs, Tenant(p, d), net))
    {
      var t :| t in TenantsFor(d) && r == Reported(Learned(externalName, docs, t, net));
      p := M.ChoiceOf(client, d.orgID, t);
    }

    method Observe(cr: Resource, remote: Remote, net: Network) returns (r: Result<M.Observation, Text>)
      requires Plausible(net)
      modifies cr`statusOrgID, cr`condition, remote
      ensures cr.externalName == "" ==> unchanged(remote)
      ensures cr.externalName != "" ==> remote.requests == old(remote.requests) + 1
      ensures remote.documents == old(remote.documents)
      ensures Reports(cr.desired, cr.externalName, remote.documents, net, r)
      ensures Valid() ==> Saw(client, cr.desired, cr.externalName, remote.documents, net, r)
      ensures if r.Ok? && r.value.resourceExists
        then cr.statusOrgID == Some(OrgID(cr.desired.orgID, defaultOrgID)) && cr.condition == M.Available
        else cr.statusOrgID == old(cr.statusOrgID) && cr.condition == old(cr.condition)
    {
      var orgID := OrgID(cr.desired.orgID, defaultOrgID);
      if cr.externalName == "" {
        ghost var t := SomeTenant(orgID, client.orgID, client.headers);
        assert t in TenantsFor(cr.desired);
        return Ok(M.Observation(false, false));
      }
      var got := GetAlertmanagerConfig(client, remote, orgID, net);
      ghost var t := TenantSent(remote.last);
      match got {
        case Err(error) => r := Err(CANNOT_GET + error);
        case Ok(config) =>
          r := Ok(M.Observation(false, false));
          if config.Some? && config.value.document.Some? {
            cr.statusOrgID := Some(orgID);
            cr.condition := M.Available;
            r := Ok(M.Observation(true, true));
          }
      }
      assert r == Reported(Learned(cr.externalName, remote.documents, t, net));
      if Valid() {
        TenantsAreTheClients(cr.desired);
        ReportIsSeen(client, cr.desired, t, cr.externalName, remote.documents, net);
      }
    }

    method Create(cr: Resource, remote: Remote, net: Network) returns (r: Result<(), Text>)
      requires Plausible(net)
      modifies cr`statusOrgID, cr`condition, cr`externalName, remote
      ensures r == M.WrappedResult(CANNOT_CREATE, SetResult(net)) && cr.condition == M.Creating
      ensures cr.externalName == if r.Ok? then OrgID(cr.desired.orgID, defaultOrgID) else old(cr.externalName)
      ensures cr.statusOrgID == if r.Ok? then Some(OrgID(cr.desired.orgID, defaultOrgID)) else old(cr.statusOrgID)
      ensures Applies(cr.desired, Some(T.Build(cr.desired)), net, old(remote.documents), remote.documents)
      ensures r.Ok? <==> net.Reliable?
      ensures remote.requests == old(remote.requests) + 1
      ensures Valid() ==> Wrote(client, cr.desired, Some(T.Build(cr.desired)), net, old(remote.documents),
                                remote.documents)
    {
      cr.condition := M.Creating;
      var orgID := OrgID(cr.desired.orgID, defaultOrgID);
      var config := T.BuildAlertmanagerConfig(cr.desired);
      var written := SetAlertmanagerConfig(client, remote, orgID, config, net);
      ghost var t := TenantSent(remote.last);
      if Valid() {
        TenantsAreTheClients(cr.desired);
        EffectIsWritten(client, cr.desired, t, Some(T.Build(cr.desired)), net, old(remote.documents));
      }
      if written.Err? {
        return Err(CANNOT_CREATE + written.error);
      }
      cr.externalName := orgID;
      cr.statusOrgID := Some(orgID);
      r := Ok(());
    }

    method Update(cr: Resource, remote: Remote, net: Network) returns (r: Result<(), Text>)
      requires Plausible(net)
      modifies remote
      ensures r == M.WrappedResult(CANNOT_UPDATE, SetResult(net))
      ensures Applies(cr.desired, Some(T.Build(cr.desired)), net, old(remote.documents), remote.documents)
      ensures r.Ok? <==> net.Reliable?
      ensures remote.requests == old(remote.requests) + 1
      ensures Valid() ==> Wrote(client, cr.desired, Some(T.Build(cr.desired)), net, old(remote.documents),
                                remote.documents)
    {
      var config := T.BuildAlertmanagerConfig(cr.desired);
      var written := SetAlertmanagerConfig(client, remote, OrgID(cr.desired.orgID, defaultOrgID), config, net);
      ghost var t := TenantSent(remote.last);
      if Valid() {
        TenantsAreTheClients(cr.desired);
        EffectIsWritten(client, cr.desired, t, Some(T.Build(cr.desired)), net, old(remote.documents));
      }
      r := if written.Err? then Err(CANNOT_UPDATE + written.error) else Ok(());
    }

    method Delete(cr: Resource, remote: Remote, net: Network) returns (r: Result<(), Text>)
      requires Plausible(net)
      modifies cr`condition, remote
      ensures r == M.WrappedResult(CANNOT_DELETE, DeleteResult(net)) && cr.condition == M.Deleting
      ensures Applies(cr.desired, None, net, old(remote.documents), remote.documents)
      ensures r.Ok? <==> net.Reliable? || ReadsAbsent(net)
      ensures remote.requests == old(remote.requests) + 1
      ensures Valid() ==> Wrote(client, cr.desired, None, net, old(remote.documents), remote.documents)
    {
      cr.condition := M.Deleting;
      var deleted := DeleteAlertmanagerConfig(client, remote, OrgID(cr.desired.orgID, defaultOrgID), net);
      ghost var t := TenantSent(remote.last);
      if Valid() {
        TenantsAreTheClients(cr.desired);
        EffectIsWritten(client, cr.desired, t, None, net, old(remote.documents));
      }
      r := if deleted.Err? then Err(CANNOT_DELETE + deleted.error) else Ok(());
    }

    /** The first half of a pass: what the driver does with an observation is what the protocol decides, for one of
        the choices the headers allow. */
    method Look(cr: Resource, remote: Remote, net: Network) returns (next: Phase, ghost p: L.Provider)
      requires Valid() && Plausible(net) && !cr.finalised
      modifies cr`statusOrgID, cr`condition, remote
      ensures remote.documents == old(remote.documents) && M.Chosen(client, p)
      ensures next == Step(WorldOf(p, cr, remote), AlertmanagerLifecycle.Observe(M.AnswerOf(net))).local.phase
      ensures next.Pending? ==> next.snapshot == cr.desired
    {
      var d := cr.desired;
      var observed := Observe(cr, remote, net);
      next := Idle;
      if observed.Ok? {
        var o := observed.value;
        next := if cr.deleting then (if o.resourceExists then Pending(L.Delete, d) else Gone)
          else if !o.resourceExists then Pending(L.Create, d)
          else if !o.resourceUpToDate then Pending(L.Update, d)
          else Idle;
      }
      p := ChoiceForReport(cr.desired, cr.externalName, remote.documents, net, observed);
      DecisionIsStep(WorldOf(p, cr, remote).local, remote.documents, net);
      assert next == Decision(cr.desired, cr.deleting, observed);
    }

    /** The second half, action by action: the write, and the annotation that is or is not persisted. */
    method ActCreate(cr: Resource, remote: Remote, net: Network, persisted: bool) returns (ghost p: L.Provider)
      requires Valid() && Plausible(net) && !cr.finalised
      modifies cr`statusOrgID, cr`condition, cr`externalName, remote
      ensures M.Chosen(client, p)
      ensures WorldOf(p, cr, remote) ==
        Step(Deciding(old(WorldOf(p, cr, remote)), Pending(L.Create, cr.desired)), Write(M.OutcomeOf(net, persisted)))
    {
      var before := cr.externalName;
      var _ := Create(cr, remote, net);
      if !persisted {
        cr.externalName := before;
      }
      p := ChoiceForWrite(cr.desired, Some(T.Build(cr.desired)), net, old(remote.documents), remote.documents);
      WriteIsStep(Deciding(old(WorldOf(p, cr, remote)), Pending(L.Create, cr.desired)), net, persisted);
    }

    method ActUpdate(cr: Resource, remote: Remote, net: Network, ghost persisted: bool) returns (ghost p: L.Provider)
      requires Valid() && Plausible(net) && !cr.finalised
      modifies remote
      ensures M.Chosen(client, p)
      ensures WorldOf(p, cr, remote) ==
        Step(Deciding(old(WorldOf(p, cr, remote)), Pending(L.Update, cr.desired)), Write(M.OutcomeOf(net, persisted)))
    {
      var _ := Update(cr, remote, net);
      p := ChoiceForWrite(cr.desired, Some(T.Build(cr.desired)), net, old(remote.documents), remote.documents);
      WriteIsStep(Deciding(old(WorldOf(p, cr, remote)), Pending(L.Update, cr.desired)), net, persisted);
    }

    method ActDelete(cr: Resource, remote: Remote, net: Network, ghost persisted: bool) returns (ghost p: L.Provider)
      requires Valid() && Plausible(net) && !cr.finalised
      modifies cr`condition, remote
      ensures M.Chosen(client, p)
      ensures WorldOf(p, cr, remote) ==
        Step(Deciding(old(WorldOf(p, cr, remote)), Pending(L.Delete, cr.desired)), Write(M.OutcomeOf(net, persisted)))
    {
      var _ := Delete(cr, remote, net);
      p := ChoiceForWrite(cr.desired, None, net, old(remote.documents), remote.documents);
      WriteIsStep(Deciding(old(WorldOf(p, cr, remote)), Pending(L.Delete, cr.desired)), net, persisted);
    }

    method Act(cr: Resource, remote: Remote, action: L.Action, net: Network, persisted: bool)
      returns (ghost p: L.Provider)
      requires Valid() && Plausible(net) && !cr.finalised
      modifies cr`statusOrgID, cr`condition, cr`externalName, remote
      ensures M.Chosen(client, p)
      ensures WorldOf(p, cr, remote) ==
        Step(Deciding(old(WorldOf(p, cr, remote)), Pending(action, cr.desired)), Write(M.OutcomeOf(net, persisted)))
    {
      match action
      case Create => p := ActCreate(cr, remote, net, persisted);
      case Update => p := ActUpdate(cr, remote, net, persisted);
      case Delete => p := ActDelete(cr, remote, net, persisted);
    }

    /** One pass of a driver that does what Observe dictates is two steps of the protocol, whatever the network does
        and whatever tenant headers are configured; the two requests may make different choices among these. */
    method Reconcile(cr: Resource, remote: Remote, get: Network, put: Network, persisted: bool)
      returns (ghost p: L.Provider, ghost q: L.Provider)
      requires Valid() && Plausible(get) && Plausible(put)
      modifies cr, remote
      ensures M.Chosen(client, p) && M.Chosen(client, q)
      ensures var looked := Step(old(WorldOf(p, cr, remote)), AlertmanagerLifecycle.Observe(M.AnswerOf(get)));
        WorldOf(q, cr, remote) == Step(ActingFor(looked, q), Write(M.OutcomeOf(put, persisted)))
    {
      p := M.SomeChoice(client);
      q := p;
      if cr.finalised {
        return;
      }
      var next;
      next, p := Look(cr, remote, get);
      q := p;
      HalfPasses(WorldOf(p, cr, remote), M.AnswerOf(get), M.OutcomeOf(put, persisted));
      assert WorldOf(p, cr, remote) == old(WorldOf(p, cr, remote));
      match next
      case Pending(action, _) => q := Act(cr, remote, action, put, persisted);
      case Gone => cr.finalised := true;
      case Idle =>
    }
  }
}
