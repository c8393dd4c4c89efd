/** What the network does to a request. */
module Networks {
  import opened Texts
  import opened Replies

  /** Deliver it and its reply; fail before the server sees it; lose the reply of a request that was served; or
      have somebody on the way answer outside 200..299 before it is served. */
  datatype Network = Reliable | Unreachable(reason: Text) | ReplyLost(reason: Text) | Refused(status: nat, body: Text)

  predicate Plausible(net: Network) {
    net.Refused? ==> net.status < 200 || net.status >= 300
  }

  /** The server gets to see the request. */
  predicate Served(net: Network) {
    net.Reliable? || net.ReplyLost?
  }

  /** The error text the client's caller sees of an exchange that did not go through. */
  function Trouble(net: Network): Text
    requires !net.Reliable?
  {
    if net.Refused? then StatusError(net.status, net.body) else REQUEST_FAILED + net.reason
  }

  /** Trouble that the client takes for "not found". */
  predicate Misleading(net: Network) {
    !net.Reliable? && IsNotFound(Trouble(net))
  }

  /** A refusal misleads exactly with status 404 or a phrase of its own. */
  lemma RefusalMisleadsExactly(status: nat, body: Text)
    ensures Misleading(Refused(status, body)) <==> status == 404 || !PhraseFree(body)
  {
    NotFoundExactly(status, body);
  }

  // --------------------------------------------------------------------------------------------------
  // In other words: predicates and texts that state what is proved, and are not used by the model

  /** The server's state takes the request. */
  ghost predicate Reaches(net: Network) {
    match net
    case Reliable => true
    case ReplyLost(_) => true
    case Unreachable(_) => false
    case Refused(_, _) => false
  }

  /** The client is told of an error that it takes for "not found". */
  ghost predicate ReadsAbsent(net: Network) {
    match net
    case Reliable => false
    case ReplyLost(reason) => HasPhrase(reason)
    case Unreachable(reason) => HasPhrase(reason)
    case Refused(status, body) => status == 404 || HasPhrase(body)
  }

  /** The text of the error. */
  ghost function ErrorText(net: Network): Text {
    match net
    case Reliable => ""
    case ReplyLost(reason) => "request failed: " + reason
    case Unreachable(reason) => "request failed: " + reason
    case Refused(status, body) => "unexpected response code '" + Decimal(status) + "': " + body
  }

  lemma NetworkExactly(net: Network)
    requires Plausible(net)
    ensures Served(net) <==> Reaches(net)
    ensures Misleading(net) <==> ReadsAbsent(net)
    ensures !net.Reliable? ==> Trouble(net) == ErrorText(net)
  {
    match net
    case Reliable =>
    case ReplyLost(reason) => TransportExactly(reason);
    case Unreachable(reason) => TransportExactly(reason);
    case Refused(status, body) =>
      RefusalMisleadsExactly(status, body);
      PhrasesExactly(body);
      ReplyExactly(status, body, "");
  }
}
