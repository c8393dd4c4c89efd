/** Request headers of the client: canonical names, precedence, and the tenant a request acts for. */
module Headers {
  import opened Wrappers
  import opened Texts
  import opened Addressing

  /** http.Header with one value per canonical name, which is all that Set ever leaves. */
  type Header = map<Text, Text>

  class HttpRequest {
    var header: Header

    constructor ()
      ensures header == map[]
    {
      header := map[];
    }
  }

  /** The fields of mimir.Client that requests depend on. */
  datatype Client = Client(bases: Bases, orgID: Text, token: Text, username: Text, password: Text,
                           headers: map<Text, Text>)

  const SCOPE: Text := "X-Scope-OrgID"
  const AUTHORIZATION: Text := "Authorization"
  const CONTENT_TYPE: Text := "Content-Type"
  const YAML: Text := "application/yaml"

  predicate FieldByte(c: char) {
    || AlphaNumeric(c) || '#' <= c <= '\'' || c == '!' || c == '*' || c == '+' || c == '-' || c == '.'
    || '^' <= c <= '`' || c == '|' || c == '~'
  }

  function Recase(c: Octet, upper: bool): Octet {
    if upper && 'a' <= c <= 'z' then (c as int - 32) as char
    else if !upper && 'A' <= c <= 'Z' then (c as int + 32) as char
    else c
  }

  /** First letters and letters after a hyphen in upper case, the others in lower case. */
  function TitleAt(s: Text, i: nat): Octet
    requires i < |s|
  {
    Recase(s[i], i == 0 || s[i - 1] == '-')
  }

  function Title(s: Text): (r: Text)
    ensures |r| == |s|
    ensures forall i :: 0 <= i < |s| ==> r[i] == TitleAt(s, i)
  {
    seq(|s|, i requires 0 <= i < |s| => TitleAt(s, i))
  }

  /** textproto.CanonicalMIMEHeaderKey: a name with a byte that no header name can have stays as it is. */
  function CanonicalKey(s: Text): (r: Text)
    ensures |r| == |s|
  {
    if FieldName(s) then Title(s) else s
  }

  function Lower(s: Text): (r: Text)
    ensures |r| == |s|
  {
    seq(|s|, i requires 0 <= i < |s| => Recase(s[i], false))
  }

  predicate FieldName(s: Text) {
    forall i :: 0 <= i < |s| ==> FieldByte(s[i])
  }

  lemma RecaseTwice(c: Octet, upper: bool)
    ensures Recase(Recase(c, upper), false) == Recase(c, false)
    ensures Recase(Recase(c, false), upper) == Recase(c, upper)
    ensures FieldByte(c) ==> FieldByte(Recase(c, false))
    ensures Recase(c, false) == '-' <==> c == '-'
  {
  }

  lemma LowerAt(s: Text, i: nat)
    requires i < |s|
    ensures Lower(s)[i] == Recase(s[i], false)
  {
  }

  lemma LowerFields(s: Text)
    requires FieldName(s)
    ensures FieldName(Lower(s))
  {
    forall i | 0 <= i < |s|
      ensures FieldByte(Lower(s)[i])
    {
      LowerAt(s, i);
      RecaseTwice(s[i], false);
    }
  }

  lemma TitleLowerAt(s: Text, i: nat)
    requires i < |s|
    ensures Lower(Title(s))[i] == Lower(s)[i]
    ensures Title(Lower(s))[i] == Title(s)[i]
  {
    LowerAt(Title(s), i);
    LowerAt(s, i);
    RecaseTwice(s[i], i == 0 || s[i - 1] == '-');
    if i > 0 {
      LowerAt(s, i - 1);
      RecaseTwice(s[i - 1], false);
    }
  }

  lemma SameText(s: Text, t: Text)
    requires |s| == |t| && forall i :: 0 <= i < |s| ==> s[i] == t[i]
    ensures s == t
  {
  }

  /** Canonicalising changes nothing but case, and does not look at case. */
  lemma CanonicalLower(s: Text)
    ensures Lower(CanonicalKey(s)) == Lower(s)
    ensures FieldName(s) ==> CanonicalKey(Lower(s)) == CanonicalKey(s)
  {
    var t, l := Title(s), Lower(s);
    var lt, tl := Lower(t), Title(l);
    forall i | 0 <= i < |s|
      ensures lt[i] == l[i] && tl[i] == t[i]
    {
      TitleLowerAt(s, i);
    }
    SameText(lt, l);
    SameText(tl, t);
    if FieldName(s) {
      LowerFields(s);
    }
  }

  /** Two names address one header exactly when they agree up to case. */
  lemma CanonicalExactly(s: Text, t: Text)
    requires FieldName(s) && FieldName(t)
    ensures CanonicalKey(s) == CanonicalKey(t) <==> Lower(s) == Lower(t)
  {
    CanonicalLower(s);
    CanonicalLower(t);
  }

  function HeaderSet(h: Header, k: Text, v: Text): Header {
    h[CanonicalKey(k) := v]
  }

  function HeaderGet(h: Header, k: Text): Text {
    if CanonicalKey(k) in h then h[CanonicalKey(k)] else ""
  }

  lemma NamesApart()
    ensures CanonicalKey(SCOPE) != CanonicalKey(AUTHORIZATION)
    ensures CanonicalKey(SCOPE) != CanonicalKey(CONTENT_TYPE)
    ensures CanonicalKey(AUTHORIZATION) != CanonicalKey(CONTENT_TYPE)
    ensures CONTENT_TYPE != SCOPE
  {
    assert CanonicalKey(SCOPE)[0] == 'X' && CanonicalKey(AUTHORIZATION)[0] == 'A';
    assert |CanonicalKey(SCOPE)| == 13 == |CanonicalKey(AUTHORIZATION)| && |CanonicalKey(CONTENT_TYPE)| == 12;
  }

  /** A Go map is ranged over in some order; every key comes up once. */
  ghost predicate IsOrder(order: seq<Text>, m: map<Text, Text>) {
    multiset(order) == multiset(m.Keys)
  }

  lemma OrderKeys(order: seq<Text>, m: map<Text, Text>)
    requires IsOrder(order, m)
    ensures forall k :: k in order <==> k in m
  {
    assert forall k :: k in order <==> k in multiset(order);
  }

  /** `for k, v := range m { req.Header.Set(k, v) }` in a given order. */
  ghost function SetInOrder(h: Header, m: map<Text, Text>, order: seq<Text>): Header {
    if order == [] then h
    else
      var k := order[|order| - 1];
      var earlier := SetInOrder(h, m, order[..|order| - 1]);
      if k in m then HeaderSet(earlier, k, m[k]) else earlier
  }

  /** The values a map offers for a header, under any spelling of its name. */
  ghost function Offered(m: map<Text, Text>, name: Text): set<Text> {
    set k | k in m && CanonicalKey(k) == CanonicalKey(name) :: m[k]
  }

  lemma {:induction false} SetInOrderGets(h: Header, m: map<Text, Text>, order: seq<Text>, name: Text)
    ensures var after := SetInOrder(h, m, order);
      if exists k :: k in order && k in m && CanonicalKey(k) == CanonicalKey(name)
      then HeaderGet(after, name) in Offered(m, name)
      else HeaderGet(after, name) == HeaderGet(h, name)
  {
    if order != [] {
      var k, earlier := order[|order| - 1], order[..|order| - 1];
      SetInOrderGets(h, m, earlier, name);
      assert forall j :: j in order <==> j in earlier || j == k;
    }
  }

  /** All orders offer one of the values offered, or leave the header as it was. */
  lemma RangeGets(h: Header, m: map<Text, Text>, order: seq<Text>, name: Text)
    requires IsOrder(order, m)
    ensures var after := HeaderGet(SetInOrder(h, m, order), name);
      if Offered(m, name) == {} then after == HeaderGet(h, name) else after in Offered(m, name)
  {
    OrderKeys(order, m);
    SetInOrderGets(h, m, order, name);
    if k :| k in m && CanonicalKey(k) == CanonicalKey(name) {
      assert m[k] in Offered(m, name);
    }
  }

  /** setHeaders before the map loops. */
  function Authenticate(c: Client, h: Header): Header {
    if c.token != "" then HeaderSet(h, AUTHORIZATION, "Bearer " + c.token)
    else if c.username != "" && c.password != "" then
      HeaderSet(h, AUTHORIZATION, "Basic " + Base64(c.username + ":" + c.password))
    else h
  }

  /** setHeaders after the map loops. */
  function DefaultTenant(c: Client, h: Header): Header {
    if c.orgID != "" && HeaderGet(h, SCOPE) == "" then HeaderSet(h, SCOPE, c.orgID) else h
  }

  /** Both map loops, each in its order. */
  ghost function RangeBoth(h: Header, configured: map<Text, Text>, extra: map<Text, Text>,
                           order1: seq<Text>, order2: seq<Text>): Header {
    SetInOrder(SetInOrder(h, configured, order1), extra, order2)
  }

  /** The headers setHeaders may leave on a request that starts with the authentication headers h. */
  ghost predicate Possible(c: Client, h: Header, extra: map<Text, Text>, final: Header) {
    exists order1, order2 :: IsOrder(order1, c.headers) && IsOrder(order2, extra) &&
      final == DefaultTenant(c, RangeBoth(h, c.headers, extra, order1, order2))
  }

  /** What two loops may leave under a name: an extra value if there is one, else a configured one,
      else what was there. */
  ghost function MayLeave(h: Header, configured: map<Text, Text>, extra: map<Text, Text>, name: Text): set<Text> {
    if Offered(extra, name) != {} then Offered(extra, name)
    else if Offered(configured, name) != {} then Offered(configured, name)
    else {HeaderGet(h, name)}
  }

  lemma RangeBothGets(h: Header, configured: map<Text, Text>, extra: map<Text, Text>,
                      order1: seq<Text>, order2: seq<Text>, name: Text)
    requires IsOrder(order1, configured) && IsOrder(order2, extra)
    ensures HeaderGet(RangeBoth(h, configured, extra, order1, order2), name) in MayLeave(h, configured, extra, name)
  {
    RangeGets(h, configured, order1, name);
    RangeGets(SetInOrder(h, configured, order1), extra, order2, name);
  }

  lemma NextInOrder(m: map<Text, Text>, rest: set<Text>, order: seq<Text>, k: Text)
    requires multiset(order) == multiset(m.Keys - rest) && rest <= m.Keys && k in rest
    ensures multiset(order + [k]) == multiset(m.Keys - (rest - {k}))
  {
    assert m.Keys - (rest - {k}) == (m.Keys - rest) + {k};
  }

  lemma NextSet(h: Header, m: map<Text, Text>, order: seq<Text>, k: Text)
    requires k in m
    ensures SetInOrder(h, m, order + [k]) == HeaderSet(SetInOrder(h, m, order), k, m[k])
  {
    assert (order + [k])[..|order|] == order;
  }

  /** One range loop over a map, in whatever order it comes. */
  method SetAll(req: HttpRequest, m: map<Text, Text>)
    modifies req
    ensures exists order :: IsOrder(order, m) && req.header == SetInOrder(old(req.header), m, order)
  {
    var rest := m.Keys;
    ghost var order := [];
    while rest != {}
      invariant rest <= m.Keys
      invariant multiset(order) == multiset(m.Keys - rest)
      invariant req.header == SetInOrder(old(req.header), m, order)
      decreases rest
    {
      var k :| k in rest;
      NextInOrder(m, rest, order, k);
      NextSet(old(req.header), m, order, k);
      req.header := HeaderSet(req.header, k, m[k]);
      order := order + [k];
      rest := rest - {k};
    }
    assert m.Keys - rest == m.Keys;
  }

  /** setHeaders */
  method SetHeaders(c: Client, req: HttpRequest, extra: map<Text, Text>)
    modifies req
    ensures Possible(c, Authenticate(c, old(req.header)), extra, req.header)
  {
    req.header := Authenticate(c, req.header);
    ghost var h0 := req.header;
    SetAll(req, c.headers);
    ghost var order1 :| IsOrder(order1, c.headers) && req.header == SetInOrder(h0, c.headers, order1);
    ghost var h1 := req.header;
    SetAll(req, extra);
    ghost var order2 :| IsOrder(order2, extra) && req.header == SetInOrder(h1, extra, order2);
    ghost var h2 := req.header;
    req.header := DefaultTenant(c, req.header);
    assert h2 == RangeBoth(h0, c.headers, extra, order1, order2);
  }

  function BodyHeaders(hasBody: bool): map<Text, Text> {
    if hasBody then map[CONTENT_TYPE := YAML] else map[]
  }

  function TenantHeaders(orgID: Text): map<Text, Text> {
    if orgID != "" then map[SCOPE := orgID] else map[]
  }

  /** The headers each client operation passes along: the body's type, and the tenant when there is one. */
  function ExtraHeaders(orgID: Text, hasBody: bool): map<Text, Text> {
    BodyHeaders(hasBody) + TenantHeaders(orgID)
  }

  /** The tenants a request may end up acting for, over all orders of ranging over the configured headers. */
  ghost function Tenants(orgID: Text, providerOrg: Text, headers: map<Text, Text>): set<Text> {
    if orgID != "" then {orgID}
    else if Offered(headers, SCOPE) == {} then {providerOrg}
    else set v | v in Offered(headers, SCOPE) :: if v == "" then providerOrg else v
  }

  lemma SomeTenant(orgID: Text, providerOrg: Text, headers: map<Text, Text>) returns (tenant: Text)
    ensures tenant in Tenants(orgID, providerOrg, headers)
  {
    if orgID == "" && Offered(headers, SCOPE) != {} {
      var v :| v in Offered(headers, SCOPE);
      tenant := if v == "" then providerOrg else v;
    } else {
      tenant := if orgID != "" then orgID else providerOrg;
    }
  }

  lemma OfferedByOne(k: Text, v: Text, name: Text)
    ensures Offered(map[k := v], name) == if CanonicalKey(k) == CanonicalKey(name) then {v} else {}
  {
    var m := map[k := v];
    assert k in m && m[k] == v;
  }

  lemma OfferedBySum(m: map<Text, Text>, n: map<Text, Text>, name: Text)
    requires m.Keys !! n.Keys
    ensures Offered(m + n, name) == Offered(m, name) + Offered(n, name)
  {
    assert forall k :: k in m ==> k !in n && (m + n)[k] == m[k];
  }

  lemma ExtraOffers(orgID: Text, hasBody: bool)
    ensures Offered(ExtraHeaders(orgID, hasBody), SCOPE) == if orgID != "" then {orgID} else {}
    ensures Offered(ExtraHeaders(orgID, hasBody), AUTHORIZATION) == {}
  {
    NamesApart();
    ExtraOffersUnder(orgID, hasBody, SCOPE);
    ExtraOffersUnder(orgID, hasBody, AUTHORIZATION);
  }

  lemma TwoOffers(k: Text, v: Text, present: bool, k': Text, v': Text, present': bool, name: Text)
    requires k != k' && CanonicalKey(name) != CanonicalKey(k)
    ensures Offered((if present then map[k := v] else map[]) + (if present' then map[k' := v'] else map[]), name)
         == if present' && CanonicalKey(k') == CanonicalKey(name) then {v'} else {}
  {
    OfferedByOne(k, v, name);
    OfferedByOne(k', v', name);
    OfferedBySum(if present then map[k := v] else map[], if present' then map[k' := v'] else map[], name);
  }

  lemma ExtraOffersUnder(orgID: Text, hasBody: bool, name: Text)
    requires CanonicalKey(name) != CanonicalKey(CONTENT_TYPE)
    ensures Offered(ExtraHeaders(orgID, hasBody), name)
         == if orgID != "" && CanonicalKey(SCOPE) == CanonicalKey(name) then {orgID} else {}
  {
    NamesApart();
    TwoOffers(CONTENT_TYPE, YAML, hasBody, SCOPE, orgID, orgID != "", name);
  }

  /** What the last step of setHeaders does to a name. */
  lemma DefaultTenantGets(c: Client, h: Header)
    ensures HeaderGet(DefaultTenant(c, h), SCOPE) == if HeaderGet(h, SCOPE) == "" then c.orgID else HeaderGet(h, SCOPE)
    ensures HeaderGet(DefaultTenant(c, h), AUTHORIZATION) == HeaderGet(h, AUTHORIZATION)
  {
    NamesApart();
  }

  lemma AuthenticateLeavesScope(c: Client)
    ensures HeaderGet(Authenticate(c, map[]), SCOPE) == ""
  {
    NamesApart();
  }

  /** The headers a request that carries orgID may leave with. */
  ghost predicate Sends(c: Client, orgID: Text, hasBody: bool, final: Header) {
    Possible(c, Authenticate(c, map[]), ExtraHeaders(orgID, hasBody), final)
  }

  lemma TenantAfterDefault(c: Client, orgID: Text, hasBody: bool, v: Text)
    requires v in MayLeave(Authenticate(c, map[]), c.headers, ExtraHeaders(orgID, hasBody), SCOPE)
    ensures (if v == "" then c.orgID else v) in Tenants(orgID, c.orgID, c.headers)
  {
    ExtraOffers(orgID, hasBody);
    AuthenticateLeavesScope(c);
  }

  /** Whatever the order, the tenant on the wire is one of Tenants. */
  lemma TenantIsPossible(c: Client, orgID: Text, hasBody: bool, final: Header)
    requires Sends(c, orgID, hasBody, final)
    ensures HeaderGet(final, SCOPE) in Tenants(orgID, c.orgID, c.headers)
  {
    var h, extra := Authenticate(c, map[]), ExtraHeaders(orgID, hasBody);
    var order1, order2 :| IsOrder(order1, c.headers) && IsOrder(order2, extra) &&
      final == DefaultTenant(c, RangeBoth(h, c.headers, extra, order1, order2));
    var ranged := RangeBoth(h, c.headers, extra, order1, order2);
    RangeBothGets(h, c.headers, extra, order1, order2, SCOPE);
    DefaultTenantGets(c, ranged);
    TenantAfterDefault(c, orgID, hasBody, HeaderGet(ranged, SCOPE));
  }

  /** The headers one request goes out with. */
  method RequestHeaders(c: Client, orgID: Text, hasBody: bool) returns (header: Header)
    ensures Sends(c, orgID, hasBody, header)
    ensures HeaderGet(header, SCOPE) in Tenants(orgID, c.orgID, c.headers)
  {
    var req := new HttpRequest();
    SetHeaders(c, req, ExtraHeaders(orgID, hasBody));
    TenantIsPossible(c, orgID, hasBody, req.header);
    header := req.header;
  }

  lemma {:induction false} SomeOrder(s: set<Text>) returns (order: seq<Text>)
    ensures multiset(order) == multiset(s)
  {
    if s == {} {
      order := [];
    } else {
      var k :| k in s;
      var rest := SomeOrder(s - {k});
      order := rest + [k];
      assert s == (s - {k}) + {k};
    }
  }

  /** A value offered is left behind when its key is ranged over last. */
  lemma LastWord(h: Header, m: map<Text, Text>, name: Text, v: Text) returns (order: seq<Text>)
    requires v in Offered(m, name)
    ensures IsOrder(order, m)
    ensures HeaderGet(SetInOrder(h, m, order), name) == v
  {
    var k :| k in m && CanonicalKey(k) == CanonicalKey(name) && m[k] == v;
    var others := SomeOrder(m.Keys - {k});
    order := others + [k];
    assert m.Keys == (m.Keys - {k}) + {k};
    assert order[..|others|] == others;
  }

  /** Each value the loops may leave is left by some pair of orders. */
  lemma RangeBothReaches(h: Header, configured: map<Text, Text>, extra: map<Text, Text>, name: Text, v: Text)
    returns (order1: seq<Text>, order2: seq<Text>)
    requires v in MayLeave(h, configured, extra, name)
    ensures IsOrder(order1, configured) && IsOrder(order2, extra)
    ensures HeaderGet(RangeBoth(h, configured, extra, order1, order2), name) == v
  {
    order1 := SomeOrder(configured.Keys);
    order2 := SomeOrder(extra.Keys);
    if Offered(extra, name) != {} {
      order2 := LastWord(SetInOrder(h, configured, order1), extra, name, v);
    } else if Offered(configured, name) != {} {
      order1 := LastWord(h, configured, name, v);
      RangeGets(SetInOrder(h, configured, order1), extra, order2, name);
    } else {
      RangeBothGets(h, configured, extra, order1, order2, name);
    }
  }

  /** The value the loops must leave for a tenant to come out of the last step. */
  lemma TenantBeforeDefault(c: Client, orgID: Text, hasBody: bool, tenant: Text)
    returns (v: Text)
    requires tenant in Tenants(orgID, c.orgID, c.headers)
    ensures v in MayLeave(Authenticate(c, map[]), c.headers, ExtraHeaders(orgID, hasBody), SCOPE)
    ensures tenant == if v == "" then c.orgID else v
  {
    ExtraOffers(orgID, hasBody);
    AuthenticateLeavesScope(c);
    if orgID == "" && Offered(c.headers, SCOPE) != {} {
      v :| v in Offered(c.headers, SCOPE) && tenant == if v == "" then c.orgID else v;
    } else {
      v := orgID;
    }
  }

  /** And every one of Tenants is the tenant on the wire for some order. */
  lemma EveryTenantHappens(c: Client, orgID: Text, hasBody: bool, tenant: Text)
    returns (final: Header)
    requires tenant in Tenants(orgID, c.orgID, c.headers)
    ensures Sends(c, orgID, hasBody, final)
    ensures HeaderGet(final, SCOPE) == tenant
  {
    var h, extra := Authenticate(c, map[]), ExtraHeaders(orgID, hasBody);
    var v := TenantBeforeDefault(c, orgID, hasBody, tenant);
    var order1, order2 := RangeBothReaches(h, c.headers, extra, SCOPE, v);
    var ranged := RangeBoth(h, c.headers, extra, order1, order2);
    DefaultTenantGets(c, ranged);
    final := DefaultTenant(c, ranged);
  }

  /** No two spellings of the tenant header that could be told apart on the wire. */
  ghost predicate Unambiguous(providerOrg: Text, headers: map<Text, Text>) {
    forall j, k :: j in headers && k in headers && CanonicalKey(j) == CanonicalKey(k) == CanonicalKey(SCOPE) ==>
      headers[j] == headers[k] || {headers[j], headers[k]} == {"", providerOrg}
  }

  /** The order of ranging is without effect on the tenant exactly when the resolved organisation is
      non-empty or the configured headers agree on the tenant header. */
  lemma OrderIrrelevantExactly(c: Client, orgID: Text, hasBody: bool)
    ensures (forall f, f' :: Sends(c, orgID, hasBody, f) && Sends(c, orgID, hasBody, f') ==>
              HeaderGet(f, SCOPE) == HeaderGet(f', SCOPE))
       <==> orgID != "" || Unambiguous(c.orgID, c.headers)
  {
    if orgID != "" || Unambiguous(c.orgID, c.headers) {
      forall f, f' | Sends(c, orgID, hasBody, f) && Sends(c, orgID, hasBody, f')
        ensures HeaderGet(f, SCOPE) == HeaderGet(f', SCOPE)
      {
        TenantIsPossible(c, orgID, hasBody, f);
        TenantIsPossible(c, orgID, hasBody, f');
        OneTenant(orgID, c.orgID, c.headers, HeaderGet(f, SCOPE), HeaderGet(f', SCOPE));
      }
    } else {
      var v, w := TwoTenants(c.orgID, c.headers);
      var f := EveryTenantHappens(c, orgID, hasBody, v);
      var f' := EveryTenantHappens(c, orgID, hasBody, w);
    }
  }

  lemma OneTenant(orgID: Text, providerOrg: Text, headers: map<Text, Text>, v: Text, w: Text)
    requires orgID != "" || Unambiguous(providerOrg, headers)
    requires v in Tenants(orgID, providerOrg, headers) && w in Tenants(orgID, providerOrg, headers)
    ensures v == w
  {
  }

  lemma TwoTenants(providerOrg: Text, headers: map<Text, Text>) returns (v: Text, w: Text)
    requires !Unambiguous(providerOrg, headers)
    ensures v != w && v in Tenants("", providerOrg, headers) && w in Tenants("", providerOrg, headers)
  {
    var j, k :| j in headers && k in headers && CanonicalKey(j) == CanonicalKey(k) == CanonicalKey(SCOPE) &&
      headers[j] != headers[k] && {headers[j], headers[k]} != {"", providerOrg};
    assert headers[j] in Offered(headers, SCOPE) && headers[k] in Offered(headers, SCOPE);
    v := if headers[j] == "" then providerOrg else headers[j];
    w := if headers[k] == "" then providerOrg else headers[k];
  }

  /** getOrgID of every controller. */
  function OrgID(resourceOrg: Option<Text>, providerOrg: Text): Text {
    resourceOrg.GetOr(providerOrg)
  }

  /** The tenant a resource's requests act for when at most one value is configured for the tenant header. */
  function EffectiveTenant(resourceOrg: Option<Text>, providerOrg: Text, configured: Option<Text>): Text {
    var fallback := configured.GetOr("");
    if resourceOrg.Some? && resourceOrg.value != "" then resourceOrg.value
    else if resourceOrg.Some? then if fallback != "" then fallback else providerOrg
    else if providerOrg != "" then providerOrg
    else fallback
  }

  ghost predicate ConfiguredIs(headers: map<Text, Text>, configured: Option<Text>) {
    Offered(headers, SCOPE) == if configured.Some? then {configured.value} else {}
  }

  /** The resource's own non-empty organisation wins; an unset one falls to the provider's, then to the
      configured header; an explicitly empty one prefers the configured header over the provider's. */
  lemma EffectiveTenantIs(resourceOrg: Option<Text>, providerOrg: Text, headers: map<Text, Text>,
                          configured: Option<Text>)
    requires ConfiguredIs(headers, configured)
    ensures Tenants(OrgID(resourceOrg, providerOrg), providerOrg, headers)
         == {EffectiveTenant(resourceOrg, providerOrg, configured)}
  {
    if OrgID(resourceOrg, providerOrg) == "" && configured.Some? {
      var v := configured.value;
      assert v in Offered(headers, SCOPE);
      assert forall w :: w in Offered(headers, SCOPE) ==> w == v;
    }
  }

  lemma EffectiveTenantOnWire(c: Client, resourceOrg: Option<Text>, configured: Option<Text>, hasBody: bool,
                              final: Header)
    requires ConfiguredIs(c.headers, configured)
    requires Sends(c, OrgID(resourceOrg, c.orgID), hasBody, final)
    ensures HeaderGet(final, SCOPE) == EffectiveTenant(resourceOrg, c.orgID, configured)
  {
    TenantIsPossible(c, OrgID(resourceOrg, c.orgID), hasBody, final);
    EffectiveTenantIs(resourceOrg, c.orgID, c.headers, configured);
  }

  /** The Authorization value sent is a configured one if there is any, else the client's own. */
  lemma AuthorizationOnWire(c: Client, orgID: Text, hasBody: bool, final: Header)
    requires Sends(c, orgID, hasBody, final)
    ensures if Offered(c.headers, AUTHORIZATION) == {}
      then HeaderGet(final, AUTHORIZATION) == HeaderGet(Authenticate(c, map[]), AUTHORIZATION)
      else HeaderGet(final, AUTHORIZATION) in Offered(c.headers, AUTHORIZATION)
  {
    var h, extra := Authenticate(c, map[]), ExtraHeaders(orgID, hasBody);
    var order1, order2 :| IsOrder(order1, c.headers) && IsOrder(order2, extra) &&
      final == DefaultTenant(c, RangeBoth(h, c.headers, extra, order1, order2));
    ExtraOffers(orgID, hasBody);
    RangeBothGets(h, c.headers, extra, order1, order2, AUTHORIZATION);
    DefaultTenantGets(c, RangeBoth(h, c.headers, extra, order1, order2));
  }

  // --------------------------------------------------------------------------------------------------
  // In other words: predicates and texts that state what is proved, and are not used by the model

  /** The provider's configured headers give a header a value, under some spelling of its name. */
  ghost predicate Configured(headers: map<Text, Text>, name: Text, v: Text) {
    exists k :: k in headers && CanonicalKey(k) == CanonicalKey(name) && headers[k] == v
  }

  ghost predicate Silent(headers: map<Text, Text>, name: Text) {
    forall k :: k in headers ==> CanonicalKey(k) != CanonicalKey(name)
  }

  /** A request for a resource may act for a tenant. */
  ghost predicate ActsFor(providerOrg: Text, headers: map<Text, Text>, resourceOrg: Option<Text>, tenant: Text) {
    if resourceOrg.Some? && resourceOrg.value != "" then tenant == resourceOrg.value
    else if resourceOrg.None? && providerOrg != "" then tenant == providerOrg
    else if Silent(headers, "X-Scope-OrgID") then tenant == providerOrg
    else (Configured(headers, "X-Scope-OrgID", tenant) && tenant != "") ||
         (Configured(headers, "X-Scope-OrgID", "") && tenant == providerOrg)
  }

  /** The client's own Authorization value. */
  ghost function AuthorizationText(token: Text, username: Text, password: Text): Text {
    if token != "" then "Bearer " + token
    else if username != "" && password != "" then "Basic " + Base64(username + ":" + password)
    else ""
  }

  lemma OfferedExactly(headers: map<Text, Text>, name: Text, v: Text)
    ensures v in Offered(headers, name) <==> Configured(headers, name, v)
    ensures Offered(headers, name) == {} <==> Silent(headers, name)
  {
    if !Silent(headers, name) {
      var k :| k in headers && CanonicalKey(k) == CanonicalKey(name);
      assert headers[k] in Offered(headers, name);
    }
  }

  lemma TenantsExactly(providerOrg: Text, headers: map<Text, Text>, resourceOrg: Option<Text>, tenant: Text)
    ensures tenant in Tenants(OrgID(resourceOrg, providerOrg), providerOrg, headers)
       <==> ActsFor(providerOrg, headers, resourceOrg, tenant)
  {
    OfferedExactly(headers, SCOPE, tenant);
    OfferedExactly(headers, SCOPE, "");
  }

  /** The same for the one value that a choice among the configured ones leaves. */
  lemma EffectiveExactly(resourceOrg: Option<Text>, providerOrg: Text, configured: Option<Text>)
    ensures var tenant := EffectiveTenant(resourceOrg, providerOrg, configured);
      && (resourceOrg.Some? && resourceOrg.value != "" ==> tenant == resourceOrg.value)
      && (resourceOrg.None? && providerOrg != "" ==> tenant == providerOrg)
      && (resourceOrg == Some("") || (resourceOrg.None? && providerOrg == "") ==>
            tenant == if configured.Some? && configured.value != "" then configured.value else providerOrg)
  {
  }

  lemma OrgExactly(resourceOrg: Option<Text>, providerOrg: Text)
    ensures resourceOrg.None? ==> OrgID(resourceOrg, providerOrg) == providerOrg
    ensures resourceOrg.Some? ==> OrgID(resourceOrg, providerOrg) == resourceOrg.value
  {
  }

  lemma ExtraExactly(orgID: Text, hasBody: bool, name: Text)
    ensures var extra := ExtraHeaders(orgID, hasBody);
      && (CanonicalKey(name) == CanonicalKey(CONTENT_TYPE) ==> Offered(extra, name) == if hasBody then {YAML} else {})
      && (CanonicalKey(name) == CanonicalKey(SCOPE) ==> Offered(extra, name) == if orgID != "" then {orgID} else {})
      && (CanonicalKey(name) != CanonicalKey(CONTENT_TYPE) && CanonicalKey(name) != CanonicalKey(SCOPE) ==>
            Offered(extra, name) == {})
  {
    NamesApart();
    if CanonicalKey(name) == CanonicalKey(CONTENT_TYPE) {
      ContentTypeOffered(orgID, hasBody, name);
    } else {
      ExtraOffersUnder(orgID, hasBody, name);
    }
  }

  lemma ContentTypeOffered(orgID: Text, hasBody: bool, name: Text)
    requires CanonicalKey(name) == CanonicalKey(CONTENT_TYPE)
    ensures Offered(ExtraHeaders(orgID, hasBody), name) == if hasBody then {YAML} else {}
  {
    NamesApart();
    OfferedByOne(CONTENT_TYPE, YAML, name);
    OfferedByOne(SCOPE, orgID, name);
    OfferedBySum(BodyHeaders(hasBody), TenantHeaders(orgID), name);
  }

  lemma LoopsLeave(c: Client, orgID: Text, hasBody: bool, final: Header, name: Text)
    requires Sends(c, orgID, hasBody, final) && CanonicalKey(name) != CanonicalKey(SCOPE)
    ensures HeaderGet(final, name) in MayLeave(Authenticate(c, map[]), c.headers, ExtraHeaders(orgID, hasBody), name)
  {
    var h, extra := Authenticate(c, map[]), ExtraHeaders(orgID, hasBody);
    var order1, order2 :| IsOrder(order1, c.headers) && IsOrder(order2, extra) &&
      final == DefaultTenant(c, RangeBoth(h, c.headers, extra, order1, order2));
    RangeBothGets(h, c.headers, extra, order1, order2, name);
  }

  lemma AuthenticateExactly(c: Client, name: Text)
    ensures HeaderGet(Authenticate(c, map[]), name) ==
      if CanonicalKey(name) == CanonicalKey(AUTHORIZATION) then AuthorizationText(c.token, c.username, c.password)
        else ""
  {
  }

  /** Every header of a request, in every order of ranging over the maps: the tenant; the content type of a body; a
      configured value, where there is one; and else the client's own Authorization and nothing more. */
  lemma WireExactly(c: Client, resourceOrg: Option<Text>, hasBody: bool, final: Header, name: Text)
    requires Sends(c, OrgID(resourceOrg, c.orgID), hasBody, final)
    ensures ActsFor(c.orgID, c.headers, resourceOrg, HeaderGet(final, "X-Scope-OrgID"))
    ensures var key, v := CanonicalKey(name), HeaderGet(final, name);
      key != CanonicalKey("X-Scope-OrgID") ==>
        if key == CanonicalKey("Content-Type") && hasBody then v == "application/yaml"
        else if !Silent(c.headers, name) then Configured(c.headers, name, v)
        else if key == CanonicalKey("Authorization") then v == AuthorizationText(c.token, c.username, c.password)
        else v == ""
  {
    var orgID := OrgID(resourceOrg, c.orgID);
    TenantIsPossible(c, orgID, hasBody, final);
    TenantsExactly(c.orgID, c.headers, resourceOrg, HeaderGet(final, SCOPE));
    if CanonicalKey(name) != CanonicalKey(SCOPE) {
      LoopsLeave(c, orgID, hasBody, final, name);
      ExtraExactly(orgID, hasBody, name);
      OfferedExactly(c.headers, name, HeaderGet(final, name));
      AuthenticateExactly(c, name);
    }
  }

  /** Names of headers as they go out. */
  lemma KnownNames()
    ensures CanonicalKey("x-scope-orgid") == "X-Scope-Orgid" && CanonicalKey("a b") == "a b"
  {
    var s: Text, t: Text := "x-scope-orgid", "X-Scope-Orgid";
    assert FieldName(s);
    SameText(Title(s), t);
    assert !FieldByte("a b"[1]);
  }
}
