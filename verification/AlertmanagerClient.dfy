/** The remote Alertmanager, one document per tenant, and the client's operations on it. */
module AlertmanagerClient {
  import opened Wrappers
  import opened Texts
  import opened Replies
  import opened Networks
  import opened Addressing
  import opened Headers
  import opened Requests
  import opened Ruler
  import W = AlertmanagerWire

  type Documents = map<Text, W.UserConfig>

  const ALERTS: Text := "/api/v1/alerts"

  datatype AlertsRequest = AlertsRequest(verb: Verb, path: Text, tenant: Text, body: Option<W.UserConfig>)

  datatype AlertsReply = Configured(config: W.UserConfig) | Accepted | NotConfigured | Rejected

  /** The server's side of one request. */
  function ServeAlerts(docs: Documents, q: AlertsRequest): (Documents, AlertsReply) {
    if q.path != ALERTS then (docs, Rejected)
    else match q.verb
      case GET => (docs, if q.tenant in docs then Configured(docs[q.tenant]) else NotConfigured)
      case POST => if q.body.Some? then (docs[q.tenant := q.body.value], Accepted) else (docs, Rejected)
      case DELETE => (docs - {q.tenant}, if q.tenant in docs then Accepted else NotConfigured)
  }

  /** The remote Alertmanager's state, how many requests it was sent, and the last of them. */
  class Remote {
    var documents: Documents
    var requests: nat
    var last: Sent

    constructor (documents: Documents)
      ensures this.documents == documents && requests == 0
    {
      this.documents := documents;
      requests := 0;
      last := Sent(GET, "", map[]);
    }
  }

  /** sendRequest's result for what the server replies. */
  function ReplyResult(reply: AlertsReply): Result<Option<W.UserConfig>, Text> {
    match reply
    case Configured(config) => Ok(Some(config))
    case Accepted => Ok(None)
    case NotConfigured => Err(StatusError(404, ""))
    case Rejected => Err(StatusError(400, ""))
  }

  /** One exchange: its effect on the documents, and what sendRequest returns. */
  predicate Exchanged(docs: Documents, q: AlertsRequest, net: Network, docs': Documents,
                      sent: Result<Option<W.UserConfig>, Text>)
  {
    var (served, reply) := ServeAlerts(docs, q);
    && docs' == (if Served(net) then served else docs)
    && sent == (if net.Reliable? then ReplyResult(reply) else Err(Trouble(net)))
  }

  /** The URL of all requests. */
  ghost function AlertsURL(c: Client): Text {
    ResolveURI(c.bases, AlertmanagerApi, "/api/v1/alerts")
  }

  method SendRequest(c: Client, remote: Remote, verb: Verb, body: Option<W.UserConfig>, orgID: Text, net: Network)
    returns (r: Result<Option<W.UserConfig>, Text>)
    requires Plausible(net)
    modifies remote
    ensures remote.requests == old(remote.requests) + 1
    ensures IsRequest(c, verb, AlertsURL(c), remote.last)
    ensures var t := TenantSent(remote.last);
      && t in Tenants(orgID, c.orgID, c.headers)
      && Exchanged(old(remote.documents), AlertsRequest(verb, ALERTS, t, body), net, remote.documents, r)
  {
    var header := RequestHeaders(c, orgID, verb.POST?);
    var tenant := HeaderGet(header, SCOPE);
    SendsCarries(c, orgID, verb.POST?, header);
    remote.requests, remote.last := remote.requests + 1,
    Sent(verb, ResolveURI(c.bases, AlertmanagerApi, ALERTS), header);
    var (docs, reply) := ServeAlerts(remote.documents, AlertsRequest(verb, ALERTS, tenant, body));
    if Served(net) {
      remote.documents := docs;
    }
    r := if net.Reliable? then ReplyResult(reply) else Err(Trouble(net));
  }

  const GET_FAILED: Text := "failed to get alertmanager config: "
  const SET_FAILED: Text := "failed to set alertmanager config: "
  const DELETE_FAILED: Text := "failed to delete alertmanager config: "

  function Stored(docs: Documents, tenant: Text): Option<W.UserConfig> {
    if tenant in docs then Some(docs[tenant]) else None
  }

  /** What the tenant's caller learns: its configuration if there is one, nothing as well when an error reads
      as "not found". */
  function GetResult(docs: Documents, tenant: Text, net: Network): Result<Option<W.UserConfig>, Text> {
    if net.Reliable? then Ok(Stored(docs, tenant))
    else if Misleading(net) then Ok(None)
    else Err(GET_FAILED + Trouble(net))
  }

  method GetAlertmanagerConfig(c: Client, remote: Remote, orgID: Text, net: Network)
    returns (r: Result<Option<W.UserConfig>, Text>)
    requires Plausible(net)
    modifies remote
    ensures remote.documents == old(remote.documents)
    ensures remote.requests == old(remote.requests) + 1
    ensures IsRequest(c, GET, AlertsURL(c), remote.last)
    ensures var t := TenantSent(remote.last);
      && t in Tenants(orgID, c.orgID, c.headers)
      && r == GetResult(remote.documents, t, net)
  {
    var sent := SendRequest(c, remote, GET, None, orgID, net);
    ghost var t := TenantSent(remote.last);
    NotFoundExactly(404, "");
    match sent
    case Err(error) => r := if IsNotFound(error) then Ok(None) else Err(GET_FAILED + error);
    case Ok(document) => r := Ok(document);
  }

  /** A tenant's documents with one replaced, or removed. */
  function SetDocument(docs: Documents, tenant: Text, config: Option<W.UserConfig>): Documents {
    match config
    case Some(c) => docs[tenant := c]
    case None => docs - {tenant}
  }

  /** What a write or removal does: it is applied if the server gets to see it. */
  function Effect(docs: Documents, tenant: Text, config: Option<W.UserConfig>, net: Network): Documents {
    if Served(net) then SetDocument(docs, tenant, config) else docs
  }

  function SetResult(net: Network): Result<(), Text> {
    if net.Reliable? then Ok(()) else Err(SET_FAILED + Trouble(net))
  }

  method SetAlertmanagerConfig(c: Client, remote: Remote, orgID: Text, config: W.UserConfig, net: Network)
    returns (r: Result<(), Text>)
    requires Plausible(net)
    modifies remote
    ensures r == SetResult(net) && (r.Ok? <==> net.Reliable?)
    ensures remote.requests == old(remote.requests) + 1
    ensures IsRequest(c, POST, AlertsURL(c), remote.last)
    ensures var t := TenantSent(remote.last);
      && t in Tenants(orgID, c.orgID, c.headers)
      && remote.documents == Effect(old(remote.documents), t, Some(config), net)
  {
    var sent := SendRequest(c, remote, POST, Some(config), orgID, net);
    ghost var t := TenantSent(remote.last);
    assert remote.documents == Effect(old(remote.documents), t, Some(config), net);
    match sent
    case Err(error) => r := Err(SET_FAILED + error);
    case Ok(_) => r := Ok(());
  }

  function DeleteResult(net: Network): Result<(), Text> {
    if net.Reliable? || Misleading(net) then Ok(()) else Err(DELETE_FAILED + Trouble(net))
  }

  /** Deleting what is not there succeeds as well. */
  method DeleteAlertmanagerConfig(c: Client, remote: Remote, orgID: Text, net: Network) returns (r: Result<(), Text>)
    requires Plausible(net)
    modifies remote
    ensures r == DeleteResult(net) && (r.Ok? <==> net.Reliable? || ReadsAbsent(net))
    ensures remote.requests == old(remote.requests) + 1
    ensures IsRequest(c, DELETE, AlertsURL(c), remote.last)
    ensures var t := TenantSent(remote.last);
      && t in Tenants(orgID, c.orgID, c.headers)
      && remote.documents == Effect(old(remote.documents), t, None, net)
  {
    DeleteExactly(net);
    var sent := SendRequest(c, remote, DELETE, None, orgID, net);
    ghost var t := TenantSent(remote.last);
    assert remote.documents == Effect(old(remote.documents), t, None, net);
    NotFoundExactly(404, "");
    r := Ok(());
    if sent.Err? && !IsNotFound(sent.error) {
      r := Err(DELETE_FAILED + sent.error);
    }
  }

  function GetAlerts(tenant: Text): AlertsRequest {
    AlertsRequest(GET, ALERTS, tenant, None)
  }

  /** The request that writes a tenant's document, or removes it. */
  function WriteAlerts(tenant: Text, config: Option<W.UserConfig>): AlertsRequest {
    AlertsRequest(if config.Some? then POST else DELETE, ALERTS, tenant, config)
  }

  /** After a set a get for the same tenant returns the document, after a delete it finds none; every other tenant
      reads what it read before. */
  lemma GetAfterWrite(docs: Documents, tenant: Text, config: Option<W.UserConfig>, other: Text)
    ensures var docs' := ServeAlerts(docs, WriteAlerts(tenant, config)).0;
      var (after, reply) := ServeAlerts(docs', GetAlerts(other));
      && after == docs'
      && reply == if other != tenant then ServeAlerts(docs, GetAlerts(other)).1
                  else if config.Some? then Configured(config.value)
                  else NotConfigured
  {
  }

  // --------------------------------------------------------------------------------------------------
  // In other words

  /** What a read returns: the stored document when the server answers, nothing when there is none or the error reads as
      "not found", and otherwise an error with the text of what went wrong. */
  lemma GetExactly(docs: Documents, tenant: Text, net: Network)
    requires Plausible(net)
    ensures var r := GetResult(docs, tenant, net);
      && (net.Reliable? && tenant in docs ==> r == Ok(Some(docs[tenant])))
      && (net.Reliable? && tenant !in docs ==> r == Ok(None))
      && (ReadsAbsent(net) ==> r == Ok(None))
      && (!net.Reliable? && !ReadsAbsent(net) ==>
            r == Err("failed to get alertmanager config: " + ErrorText(net)))
  {
    NetworkExactly(net);
  }

  /** A write succeeds exactly when it is acknowledged. */
  lemma SetExactly(net: Network)
    requires Plausible(net)
    ensures SetResult(net) ==
      if net.Reliable? then Ok(()) else Err("failed to set alertmanager config: " + ErrorText(net))
  {
    NetworkExactly(net);
  }

  /** A removal succeeds exactly when the exchange was reliable, or its error reads as "not found". */
  lemma DeleteExactly(net: Network)
    requires Plausible(net)
    ensures DeleteResult(net) ==
      if net.Reliable? || ReadsAbsent(net) then Ok(())
        else Err("failed to delete alertmanager config: " + ErrorText(net))
  {
    NetworkExactly(net);
  }

  /** A write or removal is applied exactly when the server gets to see it, and then to its tenant alone. */
  lemma EffectExactly(docs: Documents, tenant: Text, config: Option<W.UserConfig>, net: Network, other: Text)
    requires Plausible(net)
    ensures var docs' := Effect(docs, tenant, config, net);
      && (!Reaches(net) ==> docs' == docs)
      && (Reaches(net) ==> (tenant in docs' <==> config.Some?) && (config.Some? ==> docs'[tenant] == config.value))
      && (other != tenant ==> (other in docs' <==> other in docs) && (other in docs ==> docs'[other] == docs[other]))
  {
    NetworkExactly(net);
  }

  lemma RequestsExactly(tenant: Text, config: W.UserConfig)
    ensures GetAlerts(tenant) == AlertsRequest(GET, "/api/v1/alerts", tenant, None)
    ensures WriteAlerts(tenant, Some(config)) == AlertsRequest(POST, "/api/v1/alerts", tenant, Some(config))
    ensures WriteAlerts(tenant, None) == AlertsRequest(DELETE, "/api/v1/alerts", tenant, None)
  {
  }
}
