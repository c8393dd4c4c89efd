/** The client's rule group operations, over one HTTP exchange each. */
module RulerClient {
  import opened Wrappers
  import opened Texts
  import opened RuleGroups
  import opened Replies
  import opened Networks
  import opened Ruler
  import opened Headers
  import opened Requests

  /** The remote ruler's state, how many requests it was sent, and the last of them. */
  class Remote {
    var groups: Store
    var requests: nat
    var last: Sent

    constructor (groups: Store)
      ensures this.groups == groups && requests == 0
    {
      this.groups := groups;
      requests := 0;
      last := Sent(GET, "", map[]);
    }
  }

  const GET_FAILED: Text := "failed to get rule group: "
  const SET_FAILED: Text := "failed to set rule group: "
  const DELETE_FAILED: Text := "failed to delete rule group: "
  const NO_GROUP: Text := "group does not exist"

  /** sendRequest's result for what the server replies. */
  function ReplyResult(reply: Reply): Result<Option<RuleGroup>, Text> {
    match reply
    case Found(rg) => Ok(Some(rg))
    case Done => Ok(None)
    case Missing => Err(StatusError(404, NO_GROUP))
    case Malformed => Err(StatusError(400, ""))
  }

  /** One exchange: its effect on the remote store, and what sendRequest returns. */
  predicate Exchanged(st: Store, q: Request, net: Network, st': Store, sent: Result<Option<RuleGroup>, Text>)
  {
    var (served, reply) := Serve(st, q);
    && st' == (if Served(net) then served else st)
    && sent == (if net.Reliable? then ReplyResult(reply) else Err(Trouble(net)))
  }

  /** sendRequest, with the request's tenant taken from its headers. */
  method SendRequest(c: Client, remote: Remote, verb: Verb, path: Text, body: Option<RuleGroup>, orgID: Text,
                     net: Network)
    returns (r: Result<Option<RuleGroup>, Text>)
    requires Plausible(net)
    modifies remote
    ensures remote.requests == old(remote.requests) + 1
    ensures IsRequest(c, verb, Addressing.ResolveURI(c.bases, Addressing.RulerApi, path), remote.last)
    ensures var t := TenantSent(remote.last);
      && t in Tenants(orgID, c.orgID, c.headers)
      && Exchanged(old(remote.groups), Request(verb, path, t, body), net, remote.groups, r)
  {
    var header := RequestHeaders(c, orgID, verb.POST?);
    var tenant := HeaderGet(header, SCOPE);
    SendsCarries(c, orgID, verb.POST?, header);
    remote.requests, remote.last := remote.requests + 1,
    Sent(verb, Addressing.ResolveURI(c.bases, Addressing.RulerApi, path), header);
    var (st, reply) := Serve(remote.groups, Request(verb, path, tenant, body));
    if Served(net) {
      remote.groups := st;
    }
    r := if net.Reliable? then ReplyResult(reply) else Err(Trouble(net));
  }

  /** What GetRuleGroup returns of a key: its group, or nothing when the error reads as "not found". */
  function GetResult(st: Store, k: Key, net: Network): Result<Option<RuleGroup>, Text> {
    if net.Reliable? then Ok(Lookup(st, k))
    else if Misleading(net) then Ok(None)
    else Err(GET_FAILED + Trouble(net))
  }

  method GetRuleGroup(c: Client, remote: Remote, namespace: Text, name: Text, orgID: Text, net: Network)
    returns (r: Result<Option<RuleGroup>, Text>)
    requires Plausible(net)
    modifies remote
    ensures remote.groups == old(remote.groups)
    ensures remote.requests == old(remote.requests) + 1
    ensures IsRequest(c, GET,
                      Addressing.ResolveURI(c.bases, Addressing.RulerApi, Addressing.GroupPath(namespace, name)),
                      remote.last)
    ensures var t := TenantSent(remote.last);
      && t in Tenants(orgID, c.orgID, c.headers)
      && r == GetResult(remote.groups, Key(t, namespace, name), net)
  {
    var path := Addressing.GroupPath(namespace, name);
    var sent := SendRequest(c, remote, GET, path, None, orgID, net);
    ghost var t := TenantSent(remote.last);
    GetAddressesKey(old(remote.groups), Key(t, namespace, name));
    NotFoundExactly(404, NO_GROUP);
    match sent
    case Err(error) => r := if IsNotFound(error) then Ok(None) else Err(GET_FAILED + error);
    case Ok(document) => r := Ok(document);
  }

  /** What a write or removal does to the store: it is applied if the server gets to see it. */
  function Effect(st: Store, k: Key, g: Option<RuleGroup>, net: Network): Store {
    if Served(net) then Set(st, k, g) else st
  }

  function SetResult(net: Network): Result<(), Text> {
    if net.Reliable? then Ok(()) else Err(SET_FAILED + Trouble(net))
  }

  method SetRuleGroup(c: Client, remote: Remote, namespace: Text, orgID: Text, rg: RuleGroup, net: Network)
    returns (r: Result<(), Text>)
    requires Plausible(net)
    modifies remote
    ensures r == SetResult(net) && (r.Ok? <==> net.Reliable?)
    ensures remote.requests == old(remote.requests) + 1
    ensures IsRequest(c, POST,
                      Addressing.ResolveURI(c.bases, Addressing.RulerApi, Addressing.NamespacePath(namespace)),
                      remote.last)
    ensures var t := TenantSent(remote.last);
      && t in Tenants(orgID, c.orgID, c.headers)
      && remote.groups == Effect(old(remote.groups), Key(t, namespace, rg.name), Some(rg), net)
  {
    var path := Addressing.NamespacePath(namespace);
    var sent := SendRequest(c, remote, POST, path, Some(rg), orgID, net);
    ghost var t := TenantSent(remote.last);
    SetAddressesKey(old(remote.groups), Key(t, namespace, rg.name), rg);
    match sent
    case Err(error) => r := Err(SET_FAILED + error);
    case Ok(_) => r := Ok(());
  }

  function DeleteResult(net: Network): Result<(), Text> {
    if net.Reliable? || Misleading(net) then Ok(()) else Err(DELETE_FAILED + Trouble(net))
  }

  /** Deleting what is not there succeeds as well. */
  method DeleteRuleGroup(c: Client, remote: Remote, namespace: Text, name: Text, orgID: Text, net: Network)
    returns (r: Result<(), Text>)
    requires Plausible(net)
    modifies remote
    ensures r == DeleteResult(net) && (r.Ok? <==> net.Reliable? || ReadsAbsent(net))
    ensures remote.requests == old(remote.requests) + 1
    ensures IsRequest(c, DELETE,
                      Addressing.ResolveURI(c.bases, Addressing.RulerApi, Addressing.GroupPath(namespace, name)),
                      remote.last)
    ensures var t := TenantSent(remote.last);
      && t in Tenants(orgID, c.orgID, c.headers)
      && remote.groups == Effect(old(remote.groups), Key(t, namespace, name), None, net)
  {
    DeleteExactly(net);
    var path := Addressing.GroupPath(namespace, name);
    var sent := SendRequest(c, remote, DELETE, path, None, orgID, net);
    ghost var t := TenantSent(remote.last);
    DeleteAddressesKey(old(remote.groups), Key(t, namespace, name));
    NotFoundExactly(404, NO_GROUP);
    r := Ok(());
    if sent.Err? && !IsNotFound(sent.error) {
      r := Err(DELETE_FAILED + sent.error);
    }
  }

  // --------------------------------------------------------------------------------------------------
  // In other words

  /** What a read returns: the stored group when the server answers, nothing when the error reads as "not found", and
      otherwise an error with the text of what went wrong. */
  lemma GetExactly(st: Store, k: Key, net: Network)
    requires Plausible(net)
    ensures var r := GetResult(st, k, net);
      && (net.Reliable? && k in st ==> r == Ok(Some(st[k])))
      && (net.Reliable? && k !in st ==> r == Ok(None))
      && (ReadsAbsent(net) ==> r == Ok(None))
      && (!net.Reliable? && !ReadsAbsent(net) ==> r == Err("failed to get rule group: " + ErrorText(net)))
  {
    NetworkExactly(net);
  }

  /** A write succeeds exactly when it is acknowledged. */
  lemma SetExactly(net: Network)
    requires Plausible(net)
    ensures SetResult(net) == if net.Reliable? then Ok(()) else Err("failed to set rule group: " + ErrorText(net))
  {
    NetworkExactly(net);
  }

  /** A removal succeeds exactly when the exchange was reliable, or its error reads as "not found": a refusal with
      status 404 or a phrase in its body, or a transport failure with a phrase in its own text. */
  lemma DeleteExactly(net: Network)
    requires Plausible(net)
    ensures DeleteResult(net) ==
      if net.Reliable? || ReadsAbsent(net) then Ok(()) else Err("failed to delete rule group: " + ErrorText(net))
  {
    NetworkExactly(net);
  }

  /** A write or removal is applied exactly when the server gets to see it, and then to its key alone. */
  lemma EffectExactly(st: Store, k: Key, g: Option<RuleGroup>, net: Network, j: Key)
    requires Plausible(net)
    ensures var st' := Effect(st, k, g, net);
      && (!Reaches(net) ==> st' == st)
      && (Reaches(net) ==> (k in st' <==> g.Some?) && (g.Some? ==> st'[k] == g.value))
      && (j != k ==> (j in st' <==> j in st) && (j in st ==> st'[j] == st[j]))
  {
    NetworkExactly(net);
  }
}
