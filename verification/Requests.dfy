/** What the client hands to the HTTP client. */
module Requests {
  import opened Wrappers
  import opened Texts
  import opened Headers
  import opened Ruler

  /** The headers apart from the tenant: the content type of a body, a configured value where there is one, and else the
      client's own Authorization and nothing. */
  ghost predicate Carries(c: Client, hasBody: bool, header: Header) {
    forall name: Text {:trigger HeaderGet(header, name)} ::
      var key, v := CanonicalKey(name), HeaderGet(header, name);
      key != CanonicalKey("X-Scope-OrgID") ==>
        if key == CanonicalKey("Content-Type") && hasBody then v == "application/yaml"
        else if !Silent(c.headers, name) then Configured(c.headers, name, v)
        else if key == CanonicalKey("Authorization") then v == AuthorizationText(c.token, c.username, c.password)
        else v == ""
  }

  lemma SendsCarries(c: Client, orgID: Text, hasBody: bool, header: Header)
    requires Sends(c, orgID, hasBody, header)
    ensures Carries(c, hasBody, header)
  {
    OrgExactly(Some(orgID), c.orgID);
    forall name: Text
      ensures var key, v := CanonicalKey(name), HeaderGet(header, name);
        key != CanonicalKey("X-Scope-OrgID") ==>
          if key == CanonicalKey("Content-Type") && hasBody then v == "application/yaml"
          else if !Silent(c.headers, name) then Configured(c.headers, name, v)
          else if key == CanonicalKey("Authorization") then v == AuthorizationText(c.token, c.username, c.password)
          else v == ""
    {
      WireExactly(c, Some(orgID), hasBody, header, name);
    }
  }

  /** A request of this method and URL, with the client's headers. */
  ghost predicate IsRequest(c: Client, verb: Verb, url: Text, s: Sent) {
    s.verb == verb && s.url == url && Carries(c, verb.POST?, s.header)
  }

  ghost function TenantSent(s: Sent): Text {
    HeaderGet(s.header, "X-Scope-OrgID")
  }
}
