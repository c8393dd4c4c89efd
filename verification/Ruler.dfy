/** The remote ruler: a store of rule groups by tenant, namespace and name, behind its HTTP interface. */
module Ruler {
  import opened Wrappers
  import opened Texts
  import opened RuleGroups
  import opened Addressing

  datatype Key = Key(tenant: Text, namespace: Text, name: Text)

  type Store = map<Key, RuleGroup>

  function Lookup(st: Store, k: Key): Option<RuleGroup> {
    if k in st then Some(st[k]) else None
  }

  /** A store with the group at one key replaced, or removed. */
  function Set(st: Store, k: Key, g: Option<RuleGroup>): Store {
    match g
    case Some(rg) => st[k := rg]
    case None => st - {k}
  }

  datatype Verb = GET | POST | DELETE

  /** What is handed to the HTTP client: method, URL and headers. */
  datatype Sent = Sent(verb: Verb, url: Text, header: map<Text, Text>)

  datatype Request = Request(verb: Verb, path: Text, tenant: Text, body: Option<RuleGroup>)

  datatype Reply = Found(group: RuleGroup) | Done | Missing | Malformed

  /** The server's side of one request. A posted group is stored under its own name. */
  function Serve(st: Store, r: Request): (Store, Reply) {
    match r.verb
    case GET =>
      (match ReadGroupPath(r.path)
       case None => (st, Malformed)
       case Some((namespace, name)) =>
         (match Lookup(st, Key(r.tenant, namespace, name))
          case Some(rg) => (st, Found(rg))
          case None => (st, Missing)))
    case POST =>
      (match (ReadNamespacePath(r.path), r.body)
       case (Some(namespace), Some(rg)) => (st[Key(r.tenant, namespace, rg.name) := rg], Done)
       case _ => (st, Malformed))
    case DELETE =>
      (match ReadGroupPath(r.path)
       case None => (st, Malformed)
       case Some((namespace, name)) =>
         var k := Key(r.tenant, namespace, name);
         if k in st then (st - {k}, Done) else (st, Missing))
  }

  function GetRequest(k: Key): Request {
    Request(GET, GroupPath(k.namespace, k.name), k.tenant, None)
  }

  function SetRequest(tenant: Text, namespace: Text, rg: RuleGroup): Request {
    Request(POST, NamespacePath(namespace), tenant, Some(rg))
  }

  function DeleteRequest(k: Key): Request {
    Request(DELETE, GroupPath(k.namespace, k.name), k.tenant, None)
  }

  lemma GetAddressesKey(st: Store, k: Key)
    ensures Serve(st, GetRequest(k)) == (st, if k in st then Found(st[k]) else Missing)
  {
    PathsDecode(k.namespace, k.name);
  }

  lemma SetAddressesKey(st: Store, k: Key, rg: RuleGroup)
    requires rg.name == k.name
    ensures Serve(st, SetRequest(k.tenant, k.namespace, rg)) == (Set(st, k, Some(rg)), Done)
  {
    PathsDecode(k.namespace, k.name);
  }

  lemma RemoveAbsent(st: Store, k: Key)
    requires k !in st
    ensures st - {k} == st
  {
  }

  lemma DeleteAddressesKey(st: Store, k: Key)
    ensures Serve(st, DeleteRequest(k)) == (Set(st, k, None), if k in st then Done else Missing)
  {
    PathsDecode(k.namespace, k.name);
    if k !in st {
      RemoveAbsent(st, k);
    }
  }

  /** After a set, a get with the same tenant, namespace and name returns the group; every other read,
      including one of a key that differs only in slashes, returns what it returned before. */
  lemma GetAfterSet(st: Store, tenant: Text, namespace: Text, rg: RuleGroup, k: Key)
    ensures var st' := Serve(st, SetRequest(tenant, namespace, rg)).0;
      Serve(st', GetRequest(k)).1 ==
        if k == Key(tenant, namespace, rg.name) then Found(rg) else Serve(st, GetRequest(k)).1
  {
    var written := Key(tenant, namespace, rg.name);
    SetAddressesKey(st, written, rg);
    GetAddressesKey(st, k);
    GetAddressesKey(Set(st, written, Some(rg)), k);
  }

  /** After a delete, a get of the same key finds nothing; every other read is as before. */
  lemma GetAfterDelete(st: Store, deleted: Key, k: Key)
    ensures var st' := Serve(st, DeleteRequest(deleted)).0;
      Serve(st', GetRequest(k)).1 == if k == deleted then Missing else Serve(st, GetRequest(k)).1
  {
    DeleteAddressesKey(st, deleted);
    GetAddressesKey(st, k);
    GetAddressesKey(Set(st, deleted, None), k);
  }
}
