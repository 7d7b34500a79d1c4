/** The cluster controller: it lists what it created before, updates or creates what a
    deployment set asks for, and then deletes the rest. */
module Reconciler {
  import opened Common
  import Version

  type Labels = map<string, string>

  /** A Go map: every struct that holds it sees the same entries. */
  class LabelMap {
    var entries: Labels
  }

  datatype Workload = Workload(image: string, replicas: int, command: seq<string>)

  /** One entry of the deployment set. It is passed by value, but `labels` is shared. */
  datatype Params = Params(
    name: string, labels: LabelMap, workload: Workload, apiKey: string,
    hasService: bool, serviceName: string, ports: seq<int>,
    hasIngress: bool, host: string, bodyLimit: string)

  datatype Kind = DeploymentKind | ServiceKind | IngressKind

  datatype Key = Key(kind: Kind, name: string)

  datatype Port = Port(name: string, port: int)

  datatype Object =
    | Deployment(labels: Labels, selector: Labels, podLabels: Labels, workload: Workload, account: string)
    | Service(labels: Labels, selector: Labels, ports: seq<Port>)
    | Ingress(labels: Labels, bodyLimit: string, host: string, backend: string, port: int)

  /** The label selector `created-by=maos`. */
  predicate HasMark(l: Labels) {
    "created-by" in l && l["created-by"] == "maos"
  }

  function Marked(l: Labels): Labels {
    l["created-by" := "maos"]
  }

  function EffectiveName(p: Params): string {
    if p.serviceName != "" then p.serviceName else p.name
  }

  function DeploymentObject(p: Params, l: Labels, account: string): Object {
    Deployment(l, l, l, p.workload, account)
  }

  function ServiceObject(p: Params, l: Labels): Object {
    Service(l, l, seq(|p.ports|, i requires 0 <= i < |p.ports| =>
      Port(if |p.ports| > 1 then "port-" + Version.FormatInt(p.ports[i]) else "", p.ports[i])))
  }

  function IngressObject(p: Params, l: Labels): Object
    requires p.ports != []
  {
    Ingress(l, p.bodyLimit, p.host, EffectiveName(p), p.ports[0])
  }

  /** Building an ingress reads the first port. */
  predicate Buildable(p: Params) {
    p.hasIngress ==> p.ports != []
  }

  type Objects = map<Key, Object>

  /** The account a deployment runs under: a listed one keeps its own, a new one has its name. */
  function AccountFor(existing: Objects, name: string): string {
    var k := Key(DeploymentKind, name);
    if k in existing && existing[k].Deployment? then existing[k].account else name
  }

  /** The objects after one entry has been put in place; its marked labels are `l`. */
  function WithDeployment(objects: Objects, p: Params, l: Labels, existing: Objects): Objects {
    objects[Key(DeploymentKind, p.name) := DeploymentObject(p, l, AccountFor(existing, p.name))]
  }

  function WithService(objects: Objects, p: Params, l: Labels): Objects {
    if p.hasService then objects[Key(ServiceKind, EffectiveName(p)) := ServiceObject(p, l)] else objects
  }

  function WithIngress(objects: Objects, p: Params, l: Labels): Objects
    requires Buildable(p)
  {
    if p.hasIngress then objects[Key(IngressKind, p.name) := IngressObject(p, l)] else objects
  }

  function WithEntry(objects: Objects, p: Params, l: Labels, existing: Objects): Objects
    requires Buildable(p)
  {
    WithIngress(WithService(WithDeployment(objects, p, l, existing), p, l), p, l)
  }

  /** The names one entry uses. */
  function Names(p: Params): set<Key> {
    {Key(DeploymentKind, p.name)}
    + (if p.hasService then {Key(ServiceKind, EffectiveName(p))} else {})
    + (if p.hasIngress then {Key(IngressKind, p.name)} else {})
  }

  // ---- What is in place under a name ----

  /** The service's ports are the entry's, in its order. */
  ghost predicate CarriesPorts(p: Params, ports: seq<Port>) {
    && |ports| == |p.ports|
    && (forall n :: 0 <= n < |ports| ==> ports[n].port == p.ports[n])
    && (forall m, n :: 0 <= m < n < |ports| && ports[m].name == ports[n].name ==> p.ports[m] == p.ports[n])
  }

  /** The object under the name `k` of an entry is what the entry says, with the labels `l`. */
  ghost predicate Carries(p: Params, l: Labels, k: Key, o: Object) {
    var service := if p.serviceName == "" then p.name else p.serviceName;
    && o.labels == l
    && match k.kind
       case DeploymentKind =>
         k.name == p.name && o.Deployment? && o.workload == p.workload && o.selector == l && o.podLabels == l
       case ServiceKind =>
         p.hasService && k.name == service && o.Service? && o.selector == l && CarriesPorts(p, o.ports)
       case IngressKind =>
         && p.hasIngress && k.name == p.name && o.Ingress? && o.host == p.host && o.bodyLimit == p.bodyLimit
         && o.backend == service && p.ports != [] && o.port == p.ports[0]
  }

  /** The entry's ingress leads to a service the entry put in place, at one of its ports, and the
      service selects the pods of the entry's deployment. */
  ghost predicate Routed(objects: Objects, p: Params) {
    var d, i := Key(DeploymentKind, p.name), Key(IngressKind, p.name);
    && d in objects && objects[d].Deployment? && objects[d].selector == objects[d].podLabels
    && i in objects && objects[i].Ingress?
    && var s := Key(ServiceKind, objects[i].backend);
       && s in Names(p) && s in objects && objects[s].Service?
       && objects[s].selector == objects[d].podLabels
       && exists q :: q in objects[s].ports && q.port == objects[i].port
  }

  lemma PortsAreCarried(p: Params, l: Labels)
    ensures CarriesPorts(p, ServiceObject(p, l).ports)
  {
    var ports := ServiceObject(p, l).ports;
    forall m, n | 0 <= m < n < |ports| && ports[m].name == ports[n].name ensures p.ports[m] == p.ports[n] {
      assert ports[m].name[5..] == Version.FormatInt(p.ports[m]);
      assert ports[n].name[5..] == Version.FormatInt(p.ports[n]);
      Version.FormatIsCanonical(p.ports[m], p.ports[n]);
    }
  }

  lemma EntryIsCarried(objects: Objects, p: Params, l: Labels, existing: Objects, k: Key)
    requires Buildable(p) && k in Names(p)
    ensures k in WithEntry(objects, p, l, existing)
    ensures Carries(p, l, k, WithEntry(objects, p, l, existing)[k])
  {
    PortsAreCarried(p, l);
  }

  lemma CarriedIsRouted(objects: Objects, p: Params, l: Labels)
    requires p.hasService && p.hasIngress
    requires forall k :: k in Names(p) ==> k in objects && Carries(p, l, k, objects[k])
    ensures Routed(objects, p)
  {
    var d, i := Key(DeploymentKind, p.name), Key(IngressKind, p.name);
    assert d in Names(p) && i in Names(p);
    var s := Key(ServiceKind, EffectiveName(p));
    assert s in Names(p) && s == Key(ServiceKind, objects[i].backend);
    assert objects[s].ports[0] in objects[s].ports && objects[s].ports[0].port == objects[i].port;
  }

  /** An entry with a service and an ingress, once in place, is routed to its own pods. */
  lemma EntryIsRouted(objects: Objects, p: Params, l: Labels, existing: Objects)
    requires Buildable(p) && p.hasService && p.hasIngress
    ensures Routed(WithEntry(objects, p, l, existing), p)
  {
    var after := WithEntry(objects, p, l, existing);
    forall k | k in Names(p) ensures k in after && Carries(p, l, k, after[k]) {
      EntryIsCarried(objects, p, l, existing, k);
    }
    CarriedIsRouted(after, p, l);
  }

  /** The objects after a whole set has been put in place, given what the label maps held. */
  function WithEntries(objects: Objects, ps: seq<Params>, ls: seq<Labels>, existing: Objects): Objects
    requires |ls| == |ps| && forall i :: 0 <= i < |ps| ==> Buildable(ps[i])
  {
    if ps == [] then objects
    else
      var n := |ps| - 1;
      WithEntry(WithEntries(objects, ps[..n], ls[..n], existing), ps[n], Marked(ls[n]), existing)
  }

  /** What the set asks for, by itself. */
  function Asked(ps: seq<Params>, ls: seq<Labels>, existing: Objects): Objects
    requires |ls| == |ps| && forall i :: 0 <= i < |ps| ==> Buildable(ps[i])
  {
    WithEntries(map[], ps, ls, existing)
  }

  // ---- The cluster ----

  /** The objects of one namespace, its service accounts, and the API key stored per deployment. */
  datatype State = State(objects: Objects, accounts: set<string>, keys: map<string, string>)

  function Listed(s: State): set<Key> {
    set k | k in s.objects && HasMark(s.objects[k].labels)
  }

  /** Deployments the controller made run under the account of their own name. */
  ghost predicate WellKept(s: State) {
    forall k :: k in Listed(s) && k.kind == DeploymentKind ==>
      s.objects[k].Deployment? && s.objects[k].account == k.name && k.name in s.accounts
  }

  /** Any call may fail and then changes nothing; `faults` counts the failures that the state
      of the cluster does not explain. */
  class Cluster {
    var s: State
    ghost var created: set<Key>
    ghost var deleted: set<Key>
    ghost var faults: nat

    method Create(k: Key, o: Object) returns (ok: bool)
      modifies this
      ensures deleted == old(deleted) && faults >= old(faults)
      ensures ok ==> k !in old(s).objects && s == old(s).(objects := old(s).objects[k := o])
                     && created == old(created) + {k} && faults == old(faults)
      ensures !ok ==> s == old(s) && created == old(created) && (faults == old(faults) ==> k in s.objects)
    {
      var fails: bool := *;
      if fails {
        faults := faults + 1;
        return false;
      }
      if k in s.objects {
        return false;
      }
      s := s.(objects := s.objects[k := o]);
      created := created + {k};
      return true;
    }

    method Update(k: Key, o: Object) returns (ok: bool)
      modifies this`s, this`faults
      ensures faults >= old(faults)
      ensures ok ==> k in old(s).objects && s == old(s).(objects := old(s).objects[k := o]) && faults == old(faults)
      ensures !ok ==> s == old(s) && (faults == old(faults) ==> k !in s.objects)
    {
      var fails: bool := *;
      if fails {
        faults := faults + 1;
        return false;
      }
      if k !in s.objects {
        return false;
      }
      s := s.(objects := s.objects[k := o]);
      return true;
    }

    method Delete(k: Key) returns (ok: bool)
      modifies this
      ensures created == old(created) && faults >= old(faults)
      ensures ok ==> s == old(s).(objects := old(s).objects - {k}) && deleted == old(deleted) + {k} && faults == old(faults)
      ensures !ok ==> s == old(s) && deleted == old(deleted) && (faults == old(faults) ==> k !in s.objects)
    {
      var fails: bool := *;
      if fails {
        faults := faults + 1;
        return false;
      }
      if k !in s.objects {
        return false;
      }
      s := s.(objects := s.objects - {k});
      deleted := deleted + {k};
      return true;
    }

    method GetAccount(name: string) returns (ok: bool)
      modifies this`faults
      ensures faults >= old(faults)
      ensures ok ==> name in s.accounts && faults == old(faults)
      ensures !ok && faults == old(faults) ==> name !in s.accounts
    {
      var fails: bool := *;
      if fails {
        faults := faults + 1;
      }
      return !fails && name in s.accounts;
    }

    method EnsureAccount(name: string) returns (ok: bool)
      modifies this`s, this`faults
      ensures faults >= old(faults)
      ensures ok ==> s == old(s).(accounts := old(s).accounts + {name}) && faults == old(faults)
      ensures !ok ==> s == old(s) && faults > old(faults)
    {
      var fails: bool := *;
      if fails {
        faults := faults + 1;
        return false;
      }
      s := s.(accounts := s.accounts + {name});
      return true;
    }

    method PutKey(name: string, key: string) returns (ok: bool)
      modifies this`s, this`faults
      ensures faults >= old(faults)
      ensures ok ==> s == old(s).(keys := old(s).keys[name := key]) && faults == old(faults)
      ensures !ok ==> s == old(s) && faults > old(faults)
    {
      var fails: bool := *;
      if fails {
        faults := faults + 1;
        return false;
      }
      s := s.(keys := s.keys[name := key]);
      return true;
    }

    /** Deletes the key and then the account of a deployment that is gone; missing ones are fine. */
    method DeleteCredentials(name: string) returns (ok: bool)
      modifies this`s, this`faults
      ensures faults >= old(faults) && s.objects == old(s).objects
      ensures ok ==> s == old(s).(keys := old(s).keys - {name}, accounts := old(s).accounts - {name})
                     && faults == old(faults)
      ensures !ok ==> faults > old(faults)
                      && s.accounts == old(s).accounts
                      && (s.keys == old(s).keys || s.keys == old(s).keys - {name})
    {
      var keyFails: bool, accountFails: bool := *, *;
      if keyFails {
        faults := faults + 1;
        return false;
      }
      s := s.(keys := s.keys - {name});
      if accountFails {
        faults := faults + 1;
        return false;
      }
      s := s.(accounts := s.accounts - {name});
      return true;
    }
  }

  // ---- The controller ----

  /** Writes the mark into the shared map and builds the deployment from it. */
  method CreateDeploymentStruct(p: Params, account: string) returns (o: Object)
    modifies p.labels
    ensures p.labels.entries == Marked(old(p.labels.entries))
    ensures o == DeploymentObject(p, p.labels.entries, account)
  {
    p.labels.entries := p.labels.entries["created-by" := "maos"];
    return Deployment(p.labels.entries, p.labels.entries, p.labels.entries, p.workload, account);
  }

  /** Listed deployments run under the account of their own name. */
  ghost predicate OwnAccounts(existing: Objects) {
    forall k :: k in existing && k.kind == DeploymentKind ==> AccountFor(existing, k.name) == k.name
  }

  function NewAccount(existing: Objects, name: string): set<string> {
    if Key(DeploymentKind, name) in existing then {} else {name}
  }

  /** The first half of an entry: its deployment, with account, key and the mark in its labels. */
  method PutDeployment(c: Cluster, p: Params, existing: Objects) returns (ok: bool)
    modifies c, p.labels
    ensures c.deleted == old(c.deleted) && c.faults >= old(c.faults)
    ensures Marked(p.labels.entries) == Marked(old(p.labels.entries))
    ensures var k := Key(DeploymentKind, p.name);
            ok ==> && p.labels.entries == Marked(old(p.labels.entries))
                   && c.s.objects == WithDeployment(old(c.s).objects, p, p.labels.entries, existing)
                   && c.s.accounts == old(c.s).accounts + NewAccount(existing, p.name)
                   && c.s.keys == old(c.s).keys[p.name := p.apiKey]
                   && c.created == old(c.created) + ({k} - existing.Keys)
                   && c.faults == old(c.faults)
                   && (k in existing) == (k in old(c.s).objects)
                   && (k in existing ==> AccountFor(existing, p.name) in old(c.s).accounts)
    ensures var k := Key(DeploymentKind, p.name);
            !ok ==> && c.s.objects == old(c.s).objects && c.created == old(c.created)
                    && old(c.s).accounts <= c.s.accounts
                    && (c.faults == old(c.faults) ==>
                          || (k in existing) != (k in old(c.s).objects)
                          || (k in existing && AccountFor(existing, p.name) !in old(c.s).accounts))
    ensures OwnAccounts(existing) && WellKept(old(c.s)) ==> WellKept(c.s)
  {
    var k := Key(DeploymentKind, p.name);
    if k in existing {
      ok := c.PutKey(p.name, p.apiKey);
      if !ok {
        return;
      }
      ok := c.GetAccount(AccountFor(existing, p.name));
      if !ok {
        return;
      }
      var o := CreateDeploymentStruct(p, AccountFor(existing, p.name));
      ok := c.Update(k, o);
    } else {
      if k in c.s.objects {
        return false;
      }
      ok := c.EnsureAccount(p.name);
      if !ok {
        return;
      }
      ok := c.PutKey(p.name, p.apiKey);
      if !ok {
        return;
      }
      var o := CreateDeploymentStruct(p, p.name);
      ok := c.Create(k, o);
    }
  }

  /** Updates the object if the listing had it, and creates it otherwise. */
  method PutObject(c: Cluster, k: Key, o: Object, existing: Objects) returns (ok: bool)
    modifies c
    ensures c.deleted == old(c.deleted) && c.faults >= old(c.faults)
    ensures c.s == if ok then old(c.s).(objects := old(c.s).objects[k := o]) else old(c.s)
    ensures c.created == old(c.created) + if ok then {k} - existing.Keys else {}
    ensures ok ==> c.faults == old(c.faults) && ((k in existing) == (k in old(c.s).objects))
    ensures !ok && c.faults == old(c.faults) ==> (k in existing) != (k in old(c.s).objects)
  {
    if k in existing {
      ok := c.Update(k, o);
    } else {
      ok := c.Create(k, o);
    }
  }

  method PutService(c: Cluster, p: Params, existing: Objects) returns (ok: bool)
    modifies c
    ensures c.deleted == old(c.deleted) && c.faults >= old(c.faults)
    ensures c.s == if ok then old(c.s).(objects := WithService(old(c.s).objects, p, p.labels.entries)) else old(c.s)
    ensures ok ==> c.faults == old(c.faults)
    ensures ok && p.hasService ==>
              var k := Key(ServiceKind, EffectiveName(p));
              (k in existing) == (k in old(c.s).objects)
    ensures c.created == old(c.created)
              + if ok && p.hasService then {Key(ServiceKind, EffectiveName(p))} - existing.Keys else {}
    ensures !ok && c.faults == old(c.faults) ==>
              var k := Key(ServiceKind, EffectiveName(p));
              p.hasService && (k in existing) != (k in old(c.s).objects)
    ensures WellKept(old(c.s)) ==> WellKept(c.s)
  {
    if !p.hasService {
      return true;
    }
    ok := PutObject(c, Key(ServiceKind, EffectiveName(p)), ServiceObject(p, p.labels.entries), existing);
  }

  method PutIngress(c: Cluster, p: Params, existing: Objects) returns (ok: bool)
    requires Buildable(p)
    modifies c
    ensures c.deleted == old(c.deleted) && c.faults >= old(c.faults)
    ensures c.s == if ok then old(c.s).(objects := WithIngress(old(c.s).objects, p, p.labels.entries)) else old(c.s)
    ensures ok ==> c.faults == old(c.faults)
    ensures ok && p.hasIngress ==>
              var k := Key(IngressKind, p.name);
              && (k in existing) == (k in old(c.s).objects)
              && Carries(p, p.labels.entries, k, c.s.objects[k])
    ensures c.created == old(c.created) + if ok && p.hasIngress then {Key(IngressKind, p.name)} - existing.Keys else {}
    ensures !ok && c.faults == old(c.faults) ==>
              var k := Key(IngressKind, p.name);
              p.hasIngress && (k in existing) != (k in old(c.s).objects)
    ensures WellKept(old(c.s)) ==> WellKept(c.s)
  {
    if !p.hasIngress {
      return true;
    }
    ok := PutObject(c, Key(IngressKind, p.name), IngressObject(p, p.labels.entries), existing);
  }

  /** A listing and the cluster agree about the names an entry wants. */
  ghost predicate Agree(existing: Objects, objects: Objects, p: Params) {
    forall k :: k in Names(p) ==> ((k in existing) == (k in objects))
  }

  lemma AgreeByKind(existing: Objects, objects: Objects, p: Params)
    ensures Agree(existing, objects, p) <==>
              var d, s, i := Key(DeploymentKind, p.name), Key(ServiceKind, EffectiveName(p)), Key(IngressKind, p.name);
              && (d in existing) == (d in objects)
              && (p.hasService ==> (s in existing) == (s in objects))
              && (p.hasIngress ==> (i in existing) == (i in objects))
  {
    assert Key(DeploymentKind, p.name) in Names(p);
    assert p.hasService ==> Key(ServiceKind, EffectiveName(p)) in Names(p);
    assert p.hasIngress ==> Key(IngressKind, p.name) in Names(p);
  }

  /** The second half of an entry: its service and its ingress. */
  method PutEndpoints(c: Cluster, p: Params, existing: Objects) returns (ok: bool)
    requires Buildable(p)
    modifies c
    ensures c.deleted == old(c.deleted) && c.faults >= old(c.faults)
    ensures old(c.s).objects.Keys <= c.s.objects.Keys
    ensures var k, i := Key(ServiceKind, EffectiveName(p)), Key(IngressKind, p.name);
            var l := p.labels.entries;
            if ok then
              && c.s == old(c.s).(objects := WithIngress(WithService(old(c.s).objects, p, l), p, l))
              && c.created == old(c.created) + (Names(p) - {Key(DeploymentKind, p.name)} - existing.Keys)
              && c.faults == old(c.faults)
              && (p.hasService ==> (k in existing) == (k in old(c.s).objects))
              && (p.hasIngress ==> (i in existing) == (i in old(c.s).objects))
            else c.faults == old(c.faults) ==>
                   || (p.hasService && (k in existing) != (k in old(c.s).objects))
                   || (p.hasIngress && (i in existing) != (i in old(c.s).objects))
    ensures WellKept(old(c.s)) ==> WellKept(c.s)
  {
    ok := PutService(c, p, existing);
    if !ok {
      return;
    }
    ok := PutIngress(c, p, existing);
  }

  /** The listing and the cluster disagree about a name this entry wants, or the account of an
      existing deployment is gone. */
  ghost predicate Clashes(s: State, p: Params, existing: Objects) {
    || !Agree(existing, s.objects, p)
    || (Key(DeploymentKind, p.name) in existing && AccountFor(existing, p.name) !in s.accounts)
  }

  method ProcessOne(c: Cluster, p: Params, existing: Objects) returns (ok: bool)
    requires Buildable(p)
    modifies c, p.labels
    ensures c.deleted == old(c.deleted) && c.faults >= old(c.faults)
    ensures Marked(p.labels.entries) == Marked(old(p.labels.entries))
    ensures old(c.s).objects.Keys <= c.s.objects.Keys
    ensures ok ==> && c.s.objects == WithEntry(old(c.s).objects, p, Marked(old(p.labels.entries)), existing)
                   && c.s.accounts == old(c.s).accounts + NewAccount(existing, p.name)
                   && c.s.keys == old(c.s).keys[p.name := p.apiKey]
                   && c.created == old(c.created) + (Names(p) - existing.Keys)
                   && c.faults == old(c.faults)
                   && !Clashes(old(c.s), p, existing)
    ensures ok && p.hasService && p.hasIngress ==> Routed(c.s.objects, p)
    ensures !ok && c.faults == old(c.faults) ==> Clashes(old(c.s), p, existing)
    ensures OwnAccounts(existing) && WellKept(old(c.s)) ==> WellKept(c.s)
  {
    AgreeByKind(existing, c.s.objects, p);
    ok := PutDeployment(c, p, existing);
    if !ok {
      return;
    }
    ok := PutEndpoints(c, p, existing);
    if ok && p.hasService && p.hasIngress {
      EntryIsRouted(old(c.s).objects, p, p.labels.entries, existing);
    }
  }

  function AllNames(ps: seq<Params>): set<Key> {
    if ps == [] then {} else AllNames(ps[..|ps| - 1]) + Names(ps[|ps| - 1])
  }

  lemma EntryIsMarked(objects: Objects, p: Params, l: Labels, existing: Objects, k: Key)
    requires Buildable(p) && HasMark(l)
    ensures var o := WithEntry(objects, p, l, existing);
            && (k in o <==> k in objects || k in Names(p))
            && (k !in Names(p) && k in objects ==> o[k] == objects[k])
            && (k in Names(p) ==> HasMark(o[k].labels) && o[k] == WithEntry(map[], p, l, existing)[k]
                                  && (k.kind == DeploymentKind ==> o[k].Deployment? && o[k].account == AccountFor(existing, k.name)))
  {
  }

  /** Putting a set in place changes exactly the asked names, whatever was there before, and
      every asked object carries the mark. */
  lemma {:induction false} EntriesAreAsked(
      objects: Objects, ps: seq<Params>, ls: seq<Labels>, existing: Objects, k: Key)
    requires |ls| == |ps| && forall i :: 0 <= i < |ps| ==> Buildable(ps[i])
    ensures var o := WithEntries(objects, ps, ls, existing);
            && (k in Asked(ps, ls, existing) <==> k in AllNames(ps))
            && (k in o <==> k in objects || k in AllNames(ps))
            && (k !in AllNames(ps) && k in objects ==> o[k] == objects[k])
            && (k in AllNames(ps) ==> HasMark(o[k].labels) && o[k] == Asked(ps, ls, existing)[k]
                                      && (k.kind == DeploymentKind ==> o[k].Deployment? && o[k].account == AccountFor(existing, k.name)))
    decreases |ps|
  {
    if ps == [] {
      assert AllNames(ps) == {};
    } else {
      var n := |ps| - 1;
      EntriesAreAsked(objects, ps[..n], ls[..n], existing, k);
      EntryIsMarked(WithEntries(objects, ps[..n], ls[..n], existing), ps[n], Marked(ls[n]), existing, k);
      EntryIsMarked(Asked(ps[..n], ls[..n], existing), ps[n], Marked(ls[n]), existing, k);
    }
  }

  /** The accounts the entries make on the way. */
  function NewAccounts(ps: seq<Params>, existing: Objects): set<string> {
    if ps == [] then {} else NewAccounts(ps[..|ps| - 1], existing) + NewAccount(existing, ps[|ps| - 1].name)
  }

  /** A name the set wants is held by an object without the mark, or two entries want a name
      that does not exist yet. */
  ghost predicate TakenOrRepeated(s: State, ps: seq<Params>) {
    || (exists k :: k in AllNames(ps) && k in s.objects && k !in Listed(s))
    || (exists i, j, k :: 0 <= i < j < |ps| && k in Names(ps[i]) && k in Names(ps[j]) && k !in Listed(s))
  }

  /** A listed deployment the set wants to keep runs under an account that neither exists nor is
      made by an earlier entry. */
  ghost predicate MissingAccount(s: State, ps: seq<Params>) {
    exists i :: 0 <= i < |ps| && Key(DeploymentKind, ps[i].name) in Listed(s)
                && AccountFor(ListedObjects(s), ps[i].name) !in s.accounts + NewAccounts(ps[..i], ListedObjects(s))
  }

  /** Why a set cannot be put in place, seen before the call. */
  ghost predicate Refused(s: State, ps: seq<Params>) {
    TakenOrRepeated(s, ps) || MissingAccount(s, ps)
  }

  /** Entry `i` finds its names and its account as the listing says, after the entries before it. */
  ghost predicate Accepts(s: State, ps: seq<Params>, i: nat)
    requires i < |ps|
  {
    && (forall k :: k in Names(ps[i]) ==> (k in Listed(s) <==> k in s.objects || k in AllNames(ps[..i])))
    && (Key(DeploymentKind, ps[i].name) in Listed(s) ==>
          AccountFor(ListedObjects(s), ps[i].name) in s.accounts + NewAccounts(ps[..i], ListedObjects(s)))
  }

  lemma {:induction false} InAllNames(ps: seq<Params>, i: nat, k: Key)
    requires i < |ps| && k in Names(ps[i])
    ensures k in AllNames(ps)
    decreases |ps|
  {
    if i == |ps| - 1 {
    } else {
      InAllNames(ps[..|ps| - 1], i, k);
    }
  }

  lemma {:induction false} FromAllNames(ps: seq<Params>, k: Key) returns (i: nat)
    requires k in AllNames(ps)
    ensures i < |ps| && k in Names(ps[i])
    decreases |ps|
  {
    i := |ps| - 1;
    if k in Names(ps[i]) {
    } else {
      i := FromAllNames(ps[..i], k);
    }
  }

  lemma RefusedEntry(s: State, ps: seq<Params>, i: nat)
    requires i < |ps| && !Accepts(s, ps, i)
    ensures Refused(s, ps)
  {
    if k :| k in Names(ps[i]) && (k in Listed(s)) != (k in s.objects || k in AllNames(ps[..i])) {
      InAllNames(ps, i, k);
      if k in AllNames(ps[..i]) {
        var j := FromAllNames(ps[..i], k);
        assert ps[..i][j] == ps[j];
      }
    }
  }

  lemma AcceptedNames(s: State, ps: seq<Params>)
    requires forall i :: 0 <= i < |ps| ==> Accepts(s, ps, i)
    ensures !TakenOrRepeated(s, ps)
  {
    forall k | k in AllNames(ps) && k in s.objects ensures k in Listed(s) {
      var i := FromAllNames(ps, k);
      assert Accepts(s, ps, i);
    }
    forall i, j, k | 0 <= i < j < |ps| && k in Names(ps[i]) && k in Names(ps[j]) ensures k in Listed(s) {
      assert ps[..j][i] == ps[i];
      InAllNames(ps[..j], i, k);
      assert Accepts(s, ps, j);
    }
  }

  lemma AcceptedAccounts(s: State, ps: seq<Params>)
    requires forall i :: 0 <= i < |ps| ==> Accepts(s, ps, i)
    ensures !MissingAccount(s, ps)
  {
    forall i | 0 <= i < |ps| && Key(DeploymentKind, ps[i].name) in Listed(s)
      ensures AccountFor(ListedObjects(s), ps[i].name) in s.accounts + NewAccounts(ps[..i], ListedObjects(s))
    {
      assert Accepts(s, ps, i);
    }
  }

  /** A set is refused exactly when one of its entries is. */
  lemma AcceptsMeans(s: State, ps: seq<Params>)
    ensures (forall i :: 0 <= i < |ps| ==> Accepts(s, ps, i)) <==> !Refused(s, ps)
  {
    if i :| 0 <= i < |ps| && !Accepts(s, ps, i) {
      RefusedEntry(s, ps, i);
    } else {
      AcceptedNames(s, ps);
      AcceptedAccounts(s, ps);
    }
  }

  function ListedObjects(s: State): Objects {
    map k | k in Listed(s) :: s.objects[k]
  }

  /** The first `i` entries are in place and have created exactly the names not listed before. */
  ghost predicate InPlace(was: State, now: State, ps: seq<Params>, ls: seq<Labels>, i: nat, made: set<Key>)
    requires |ls| == |ps| && (forall j :: 0 <= j < |ps| ==> Buildable(ps[j])) && i <= |ps|
  {
    && now.objects == WithEntries(was.objects, ps[..i], ls[..i], ListedObjects(was))
    && now.accounts == was.accounts + NewAccounts(ps[..i], ListedObjects(was))
    && made == AllNames(ps[..i]) - Listed(was)
    && forall j :: 0 <= j < i ==> Accepts(was, ps, j)
  }

  /** With the entries before it in place, an entry clashes exactly when it is not accepted. */
  lemma ClashMeans(was: State, now: State, ps: seq<Params>, ls: seq<Labels>, i: nat, made: set<Key>)
    requires |ls| == |ps| && (forall j :: 0 <= j < |ps| ==> Buildable(ps[j])) && i < |ps|
    requires InPlace(was, now, ps, ls, i, made)
    ensures Clashes(now, ps[i], ListedObjects(was)) <==> !Accepts(was, ps, i)
  {
    forall k | k in Names(ps[i]) ensures k in now.objects <==> k in was.objects || k in AllNames(ps[..i]) {
      EntriesAreAsked(was.objects, ps[..i], ls[..i], ListedObjects(was), k);
    }
  }

  lemma InPlaceStep(
      was: State, now: State, next: State, ps: seq<Params>, ls: seq<Labels>, i: nat, made: set<Key>, more: set<Key>)
    requires |ls| == |ps| && (forall j :: 0 <= j < |ps| ==> Buildable(ps[j])) && i < |ps|
    requires InPlace(was, now, ps, ls, i, made)
    requires next.objects == WithEntry(now.objects, ps[i], Marked(ls[i]), ListedObjects(was))
    requires next.accounts == now.accounts + NewAccount(ListedObjects(was), ps[i].name)
    requires more == Names(ps[i]) - Listed(was)
    requires !Clashes(now, ps[i], ListedObjects(was))
    ensures InPlace(was, next, ps, ls, i + 1, made + more)
    ensures AllNames(ps[..i + 1]) == AllNames(ps[..i]) + Names(ps[i])
  {
    assert ps[..i + 1][..i] == ps[..i] && ls[..i + 1][..i] == ls[..i];
    assert AllNames(ps[..i + 1]) == AllNames(ps[..i]) + Names(ps[i]);
    ClashMeans(was, now, ps, ls, i, made);
  }

  lemma AskedKeys(ps: seq<Params>, ls: seq<Labels>, existing: Objects)
    requires |ls| == |ps| && forall i :: 0 <= i < |ps| ==> Buildable(ps[i])
    ensures var asked := Asked(ps, ls, existing);
            asked.Keys == AllNames(ps) && forall k :: k in asked ==> HasMark(asked[k].labels)
  {
    forall k
      ensures k in Asked(ps, ls, existing) <==> k in AllNames(ps)
      ensures k in Asked(ps, ls, existing) ==> HasMark(Asked(ps, ls, existing)[k].labels)
    {
      EntriesAreAsked(map[], ps, ls, existing, k);
    }
  }

  lemma ListingKeepsAccounts(s: State)
    requires WellKept(s)
    ensures OwnAccounts(ListedObjects(s))
  {
    forall k | k in ListedObjects(s) && k.kind == DeploymentKind
      ensures AccountFor(ListedObjects(s), k.name) == k.name
    {
      assert k == Key(DeploymentKind, k.name) && k in Listed(s);
    }
  }

  /** Once every entry is in place the objects are the old ones overlaid with what was asked. */
  lemma PlacedIsAsked(was: State, mid: State, ps: seq<Params>, ls: seq<Labels>, made: set<Key>)
    requires |ls| == |ps| && forall i :: 0 <= i < |ps| ==> Buildable(ps[i])
    requires InPlace(was, mid, ps, ls, |ps|, made)
    ensures mid.objects == was.objects + Asked(ps, ls, ListedObjects(was))
  {
    assert ps[..|ps|] == ps && ls[..|ls|] == ls;
    var asked := Asked(ps, ls, ListedObjects(was));
    AskedKeys(ps, ls, ListedObjects(was));
    forall k
      ensures k in mid.objects <==> k in was.objects + asked
      ensures k in mid.objects ==> mid.objects[k] == (was.objects + asked)[k]
    {
      EntriesAreAsked(was.objects, ps, ls, ListedObjects(was), k);
    }
  }

  /** The label contents the maps of a set hold. */
  ghost function LabelsOf(ps: seq<Params>): (ls: seq<Labels>)
    reads set p | p in ps :: p.labels
    ensures |ls| == |ps| && forall i :: 0 <= i < |ps| ==> ls[i] == ps[i].labels.entries
  {
    seq(|ps|, i requires 0 <= i < |ps| reads set p | p in ps :: p.labels => ps[i].labels.entries)
  }

  /** Every entry is in place: the objects are the old ones overlaid with the asked ones. */
  ghost predicate Placed(was: State, mid: State, asked: Objects, made: set<Key>) {
    && mid.objects == was.objects + asked
    && made == asked.Keys - Listed(was)
    && (forall k :: k in asked && k in was.objects ==> k in Listed(was))
  }

  lemma AllInPlace(was: State, mid: State, ps: seq<Params>, ls: seq<Labels>, made: set<Key>)
    requires |ls| == |ps| && forall i :: 0 <= i < |ps| ==> Buildable(ps[i])
    requires InPlace(was, mid, ps, ls, |ps|, made)
    ensures Placed(was, mid, Asked(ps, ls, ListedObjects(was)), made) && !Refused(was, ps)
    ensures mid.accounts == was.accounts + NewAccounts(ps, ListedObjects(was))
  {
    assert ps[..|ps|] == ps;
    AcceptsMeans(was, ps);
    AskedKeys(ps, ls, ListedObjects(was));
    PlacedIsAsked(was, mid, ps, ls, made);
  }

  /** Puts one more entry of a set in place. */
  method PlaceNext(c: Cluster, ps: seq<Params>, existing: Objects, i: nat,
                   ghost was: State, ghost ls: seq<Labels>, ghost made: set<Key>)
    returns (ok: bool, ghost more: set<Key>)
    requires |ls| == |ps| && (forall j :: 0 <= j < |ps| ==> Buildable(ps[j])) && i < |ps|
    requires InPlace(was, c.s, ps, ls, i, made) && existing == ListedObjects(was)
    requires Marked(ps[i].labels.entries) == Marked(ls[i])
    modifies c, ps[i].labels
    ensures c.deleted == old(c.deleted) && c.faults >= old(c.faults)
    ensures Marked(ps[i].labels.entries) == Marked(old(ps[i].labels.entries))
    ensures old(c.s).objects.Keys <= c.s.objects.Keys
    ensures more == Names(ps[i]) - existing.Keys
    ensures ok ==> && InPlace(was, c.s, ps, ls, i + 1, made + more) && c.created == old(c.created) + more
                   && c.faults == old(c.faults)
    ensures AllNames(ps[..i + 1]) == AllNames(ps[..i]) + Names(ps[i])
    ensures !ok && c.faults == old(c.faults) ==> !Accepts(was, ps, i)
    ensures OwnAccounts(existing) && WellKept(old(c.s)) ==> WellKept(c.s)
  {
    ghost var now := c.s;
    more := Names(ps[i]) - existing.Keys;
    assert ps[..i + 1][..i] == ps[..i];
    ClashMeans(was, now, ps, ls, i, made);
    ok := ProcessOne(c, ps[i], existing);
    if ok {
      InPlaceStep(was, now, c.s, ps, ls, i, made, more);
    }
  }

  /** Puts the entries in place one after the other, up to the first that clashes or fails. */
  method PlaceEntries(c: Cluster, ps: seq<Params>, existing: Objects, ghost ls: seq<Labels>)
    returns (ok: bool, obsolete: set<Key>, ghost made: set<Key>)
    requires forall i :: 0 <= i < |ps| ==> Buildable(ps[i])
    requires |ls| == |ps| && forall i :: 0 <= i < |ps| ==> ls[i] == ps[i].labels.entries
    requires existing == ListedObjects(c.s)
    modifies c, set p | p in ps :: p.labels
    ensures c.deleted == old(c.deleted) && c.faults >= old(c.faults)
    ensures old(c.s).objects.Keys <= c.s.objects.Keys
    ensures forall i :: 0 <= i < |ps| ==> Marked(ps[i].labels.entries) == Marked(ls[i])
    ensures ok ==> && InPlace(old(c.s), c.s, ps, ls, |ps|, made) && c.created == old(c.created) + made
                   && obsolete == Listed(old(c.s)) - AllNames(ps) && c.faults == old(c.faults)
    ensures !ok && c.faults == old(c.faults) ==> exists i :: 0 <= i < |ps| && !Accepts(old(c.s), ps, i)
    ensures OwnAccounts(existing) && WellKept(old(c.s)) ==> WellKept(c.s)
  {
    ghost var was := c.s;
    obsolete := existing.Keys;
    made := {};
    for i := 0 to |ps|
      invariant c.deleted == old(c.deleted) && c.created == old(c.created) + made && c.faults == old(c.faults)
      invariant InPlace(was, c.s, ps, ls, i, made)
      invariant was.objects.Keys <= c.s.objects.Keys
      invariant forall j :: 0 <= j < |ps| ==> Marked(ps[j].labels.entries) == Marked(ls[j])
      invariant obsolete == Listed(was) - AllNames(ps[..i])
      invariant OwnAccounts(existing) && WellKept(was) ==> WellKept(c.s)
    {
      ghost var more: set<Key>;
      ok, more := PlaceNext(c, ps, existing, i, was, ls, made);
      if !ok {
        return;
      }
      made := made + more;
      obsolete := obsolete - Names(ps[i]);
    }
    assert ps[..|ps|] == ps;
    ok := true;
  }

  /** Puts every entry in place and returns the listed names nobody asked for. */
  method ProcessDeploymentSet(c: Cluster, ps: seq<Params>, existing: Objects, ghost ls: seq<Labels>)
    returns (ok: bool, obsolete: set<Key>, ghost made: set<Key>)
    requires forall i :: 0 <= i < |ps| ==> Buildable(ps[i])
    requires |ls| == |ps| && forall i :: 0 <= i < |ps| ==> ls[i] == ps[i].labels.entries
    requires existing == ListedObjects(c.s)
    modifies c, set p | p in ps :: p.labels
    ensures c.deleted == old(c.deleted) && c.faults >= old(c.faults)
    ensures old(c.s).objects.Keys <= c.s.objects.Keys
    ensures forall i :: 0 <= i < |ps| ==> Marked(ps[i].labels.entries) == Marked(ls[i])
    ensures ok ==> && Placed(old(c.s), c.s, Asked(ps, ls, existing), made) && c.created == old(c.created) + made
                   && c.s.accounts == old(c.s).accounts + NewAccounts(ps, existing)
                   && obsolete == Listed(old(c.s)) - AllNames(ps)
                   && c.faults == old(c.faults) && !Refused(old(c.s), ps)
    ensures !ok && c.faults == old(c.faults) ==> Refused(old(c.s), ps)
    ensures WellKept(old(c.s)) ==> WellKept(c.s)
  {
    ghost var was := c.s;
    if WellKept(was) {
      ListingKeepsAccounts(was);
    }
    AcceptsMeans(was, ps);
    ok, obsolete, made := PlaceEntries(c, ps, existing, ls);
    if ok {
      AllInPlace(was, c.s, ps, ls, made);
    }
  }

  function OfKind(s: set<Key>, kind: Kind): set<Key> {
    set k | k in s && k.kind == kind
  }

  /** The names of the deployments among some keys, which are those of their own accounts. */
  function Owners(s: set<Key>): (names: set<string>)
    ensures forall n :: n in names <==> Key(DeploymentKind, n) in s
  {
    set k | k in s && k.kind == DeploymentKind :: k.name
  }

  /** The accounts that went belonged to deployments that went. */
  ghost predicate AccountsFollow(was: State, now: State, gone: set<Key>) {
    forall n :: n in was.accounts ==> n in now.accounts || Key(DeploymentKind, n) in gone
  }

  /** Deletes the given objects of one kind, and the credentials of deployments that went.
      Failures are only logged. */
  method DeleteKind(c: Cluster, kind: Kind, obsolete: set<Key>) returns (ghost gone: set<Key>)
    requires obsolete <= c.s.objects.Keys && obsolete == OfKind(obsolete, kind)
    modifies c
    ensures c.created == old(c.created) && c.deleted == old(c.deleted) + gone && c.faults >= old(c.faults)
    ensures gone <= obsolete && (c.faults == old(c.faults) ==> gone == obsolete)
    ensures c.s.objects == old(c.s).objects - gone
    ensures AccountsFollow(old(c.s), c.s, gone)
    ensures c.faults == old(c.faults) ==> c.s.accounts == old(c.s).accounts - Owners(gone)
  {
    ghost var was := c.s;
    gone := {};
    var rest := obsolete;
    while rest != {}
      invariant rest <= obsolete && gone <= obsolete - rest
      invariant c.created == old(c.created) && c.deleted == old(c.deleted) + gone && c.faults >= old(c.faults)
      invariant c.faults == old(c.faults) ==> gone == obsolete - rest
      invariant c.s.objects == was.objects - gone
      invariant AccountsFollow(was, c.s, gone)
      invariant c.faults == old(c.faults) ==> c.s.accounts == was.accounts - Owners(gone)
      decreases rest
    {
      var k :| k in rest;
      rest := rest - {k};
      assert k in obsolete && k.kind == kind;
      var ok := c.Delete(k);
      if ok {
        assert was.objects - (gone + {k}) == was.objects - gone - {k};
        gone := gone + {k};
        if kind == DeploymentKind {
          assert k == Key(DeploymentKind, k.name);
          var cleaned := c.DeleteCredentials(k.name);
        }
      }
    }
  }

  /** Everything one call did: what it made, what is gone, and what the objects are now. A call
      is clean when no deletion failed. */
  ghost predicate Reconciled(
      before: State, asked: Objects, after: State, made: set<Key>, gone: set<Key>, clean: bool)
  {
    && (forall k :: k in asked && k in before.objects ==> k in Listed(before))
    && made == asked.Keys - Listed(before)
    && gone <= Listed(before) - asked.Keys
    && (clean ==> gone == Listed(before) - asked.Keys)
    && after.objects == (before.objects + asked) - gone
  }

  method DeleteObsoleteResources(c: Cluster, obsolete: set<Key>) returns (ghost gone: set<Key>)
    requires obsolete <= c.s.objects.Keys
    modifies c
    ensures c.created == old(c.created) && c.deleted == old(c.deleted) + gone && c.faults >= old(c.faults)
    ensures gone <= obsolete && (c.faults == old(c.faults) ==> gone == obsolete)
    ensures c.s.objects == old(c.s).objects - gone
    ensures c.faults == old(c.faults) ==> c.s.accounts == old(c.s).accounts - Owners(gone)
    ensures WellKept(old(c.s)) ==> WellKept(c.s)
  {
    ghost var was := c.s;
    ghost var d := DeleteKind(c, DeploymentKind, OfKind(obsolete, DeploymentKind));
    ghost var e := DeleteKind(c, ServiceKind, OfKind(obsolete, ServiceKind));
    ghost var f := DeleteKind(c, IngressKind, OfKind(obsolete, IngressKind));
    gone := d + e + f;
    assert OfKind(obsolete, DeploymentKind) + OfKind(obsolete, ServiceKind) + OfKind(obsolete, IngressKind) == obsolete;
    assert AccountsFollow(was, c.s, gone);
    forall k | WellKept(was) && k in Listed(c.s) && k.kind == DeploymentKind
      ensures c.s.objects[k].Deployment? && c.s.objects[k].account == k.name && k.name in c.s.accounts
    {
      assert k in Listed(was) && k == Key(DeploymentKind, k.name);
    }
  }

  // ---- A whole set in force ----

  /** Entry `i` is the last to use the name: what it puts there stays. */
  ghost predicate LastToUse(ps: seq<Params>, i: nat, k: Key) {
    i < |ps| && k in Names(ps[i]) && forall j :: i < j < |ps| ==> k !in Names(ps[j])
  }

  lemma {:induction false} AskedCarries(ps: seq<Params>, ls: seq<Labels>, existing: Objects, i: nat, k: Key)
    requires |ls| == |ps| && (forall j :: 0 <= j < |ps| ==> Buildable(ps[j])) && LastToUse(ps, i, k)
    ensures k in Asked(ps, ls, existing) && Carries(ps[i], Marked(ls[i]), k, Asked(ps, ls, existing)[k])
    decreases |ps|
  {
    var n := |ps| - 1;
    var before := Asked(ps[..n], ls[..n], existing);
    if i == n {
      EntryIsCarried(before, ps[n], Marked(ls[n]), existing, k);
    } else {
      assert k !in Names(ps[n]);
      AskedCarries(ps[..n], ls[..n], existing, i, k);
      EntryIsMarked(before, ps[n], Marked(ls[n]), existing, k);
    }
  }

  /** Every entry is in force: each name holds what the last entry using it says, and an entry
      whose names no later one uses has its ingress routed to its pods. */
  ghost predicate InForce(objects: Objects, ps: seq<Params>, ls: seq<Labels>)
    requires |ls| == |ps|
  {
    && (forall i: nat, k :: LastToUse(ps, i, k) ==> k in objects && Carries(ps[i], Marked(ls[i]), k, objects[k]))
    && (forall i: nat :: i < |ps| && ps[i].hasService && ps[i].hasIngress && Undisturbed(ps, i) ==>
          Routed(objects, ps[i]))
  }

  /** No later entry uses a name of entry `i`. */
  ghost predicate Undisturbed(ps: seq<Params>, i: nat)
    requires i < |ps|
  {
    forall k :: k in Names(ps[i]) ==> LastToUse(ps, i, k)
  }

  lemma AskedInForce(ps: seq<Params>, ls: seq<Labels>, existing: Objects, objects: Objects)
    requires |ls| == |ps| && forall i :: 0 <= i < |ps| ==> Buildable(ps[i])
    requires var asked := Asked(ps, ls, existing);
             forall k :: k in asked ==> k in objects && objects[k] == asked[k]
    ensures InForce(objects, ps, ls)
  {
    forall i: nat, k | LastToUse(ps, i, k)
      ensures k in objects && Carries(ps[i], Marked(ls[i]), k, objects[k])
    {
      AskedCarries(ps, ls, existing, i, k);
    }
    forall i: nat | i < |ps| && ps[i].hasService && ps[i].hasIngress && Undisturbed(ps, i)
      ensures Routed(objects, ps[i])
    {
      CarriedIsRouted(objects, ps[i], Marked(ls[i]));
    }
  }

  /** One reconciliation; `ls` names what the label maps hold when it starts. An error before
      the deletions leaves every object standing. */
  method UpdateDeploymentSet(c: Cluster, ps: seq<Params>, ghost ls: seq<Labels>)
    returns (ok: bool, ghost made: set<Key>, ghost gone: set<Key>)
    requires forall i :: 0 <= i < |ps| ==> Buildable(ps[i])
    requires |ls| == |ps| && forall i :: 0 <= i < |ps| ==> ls[i] == ps[i].labels.entries
    modifies c, set p | p in ps :: p.labels
    ensures var asked := Asked(ps, ls, ListedObjects(old(c.s)));
            ok ==> && asked.Keys == AllNames(ps)
                   && Reconciled(old(c.s), asked, c.s, made, gone, c.faults == old(c.faults))
                   && c.created == old(c.created) + made && c.deleted == old(c.deleted) + gone
                   && !Refused(old(c.s), ps) && InForce(c.s.objects, ps, ls)
                   && (c.faults == old(c.faults) ==>
                         c.s.accounts == old(c.s).accounts + NewAccounts(ps, ListedObjects(old(c.s))) - Owners(gone))
    ensures !ok ==> old(c.s).objects.Keys <= c.s.objects.Keys && c.deleted == old(c.deleted)
    ensures c.faults >= old(c.faults)
    ensures c.faults == old(c.faults) ==> (ok <==> !Refused(old(c.s), ps))
    ensures WellKept(old(c.s)) ==> WellKept(c.s)
    ensures forall i :: 0 <= i < |ps| ==> Marked(ps[i].labels.entries) == Marked(ls[i])
  {
    made, gone := {}, {};
    ghost var was := c.s;
    var fails: bool := *;
    if fails {
      c.faults := c.faults + 1;
      return false, made, gone;
    }
    var existing := ListedObjects(c.s);
    AskedKeys(ps, ls, existing);
    var obsolete;
    ok, obsolete, made := ProcessDeploymentSet(c, ps, existing, ls);
    if !ok {
      return;
    }
    ghost var mid := c.s;
    assert obsolete <= mid.objects.Keys;
    gone := DeleteObsoleteResources(c, obsolete);
    assert c.s.objects == mid.objects - gone;
    AskedInForce(ps, ls, existing, c.s.objects);
  }

  // ---- What a call achieves ----

  /** If nothing failed and no name was taken, the marked objects are exactly the asked ones,
      with the asked contents, and unmarked objects are untouched. */
  lemma Converges(before: State, asked: Objects, after: State, made: set<Key>, gone: set<Key>)
    requires Reconciled(before, asked, after, made, gone, true)
    requires forall k :: k in asked ==> HasMark(asked[k].labels)
    ensures Listed(after) == asked.Keys
    ensures forall k :: k in asked ==> after.objects[k] == asked[k]
    ensures forall k :: k in before.objects && k !in Listed(before) ==>
              k in after.objects && after.objects[k] == before.objects[k]
    ensures forall k :: k in after.objects ==> k in asked || k in before.objects
  {
    forall k ensures k in Listed(after) <==> k in asked {
    }
  }

  /** Deletions that failed leave only objects the controller made before. */
  lemma LeftoversAreOld(before: State, asked: Objects, after: State, made: set<Key>, gone: set<Key>, clean: bool)
    requires Reconciled(before, asked, after, made, gone, clean)
    requires forall k :: k in asked ==> HasMark(asked[k].labels)
    ensures asked.Keys <= Listed(after) <= asked.Keys + Listed(before)
    ensures forall k :: k in asked ==> after.objects[k] == asked[k]
  {
  }

  /** A second run of the same set creates nothing, deletes nothing and changes nothing. */
  lemma SecondRunIsQuiet(
      before: State, asked: Objects, mid: State, made: set<Key>, gone: set<Key>,
      after: State, madeAgain: set<Key>, goneAgain: set<Key>)
    requires Reconciled(before, asked, mid, made, gone, true)
    requires Reconciled(mid, asked, after, madeAgain, goneAgain, true)
    requires forall k :: k in asked ==> HasMark(asked[k].labels)
    ensures madeAgain == {} && goneAgain == {} && after.objects == mid.objects
  {
    Converges(before, asked, mid, made, gone);
  }

  /** Neither the marks the first run wrote into the label maps nor the accounts it placed change
      what the set asks for. */
  lemma {:induction false} AskedAgain(
      ps: seq<Params>, ls: seq<Labels>, existing: Objects, later: seq<Labels>, listed: Objects)
    requires |ls| == |ps| && |later| == |ps| && forall i :: 0 <= i < |ps| ==> Buildable(ps[i])
    requires forall i :: 0 <= i < |ps| ==> Marked(later[i]) == Marked(ls[i])
    requires forall i :: 0 <= i < |ps| ==> AccountFor(listed, ps[i].name) == AccountFor(existing, ps[i].name)
    ensures Asked(ps, later, listed) == Asked(ps, ls, existing)
    decreases |ps|
  {
    if ps == [] {
      assert ls == [] && later == [];
    } else {
      AskedAgain(ps[..|ps| - 1], ls[..|ps| - 1], existing, later[..|ps| - 1], listed);
    }
  }

  /** The entries' deployments run under the same accounts in both states. */
  ghost predicate SameAccounts(before: State, mid: State, ps: seq<Params>) {
    forall i :: 0 <= i < |ps| ==>
      AccountFor(ListedObjects(mid), ps[i].name) == AccountFor(ListedObjects(before), ps[i].name)
  }

  lemma SameAccount(ps: seq<Params>, ls: seq<Labels>, existing: Objects, mid: State, i: nat)
    requires |ls| == |ps| && (forall j :: 0 <= j < |ps| ==> Buildable(ps[j])) && i < |ps|
    requires var asked := Asked(ps, ls, existing);
             asked.Keys <= Listed(mid) && forall k :: k in asked ==> mid.objects[k] == asked[k]
    ensures AccountFor(ListedObjects(mid), ps[i].name) == AccountFor(existing, ps[i].name)
  {
    var k := Key(DeploymentKind, ps[i].name);
    assert k in Names(ps[i]);
    InAllNames(ps, i, k);
    EntriesAreAsked(map[], ps, ls, existing, k);
    assert k in Asked(ps, ls, existing) && k in ListedObjects(mid);
  }

  lemma AskedOfReconciled(
      before: State, ps: seq<Params>, ls: seq<Labels>, mid: State, made: set<Key>, gone: set<Key>, later: seq<Labels>)
    requires |ls| == |ps| && |later| == |ps| && forall i :: 0 <= i < |ps| ==> Buildable(ps[i])
    requires forall i :: 0 <= i < |ps| ==> Marked(later[i]) == Marked(ls[i])
    requires Reconciled(before, Asked(ps, ls, ListedObjects(before)), mid, made, gone, true)
    ensures var asked := Asked(ps, ls, ListedObjects(before));
            && asked.Keys == AllNames(ps) && (forall k :: k in asked ==> HasMark(asked[k].labels))
            && Listed(mid) == AllNames(ps)
            && Asked(ps, later, ListedObjects(mid)) == asked
    ensures SameAccounts(before, mid, ps)
  {
    var existing := ListedObjects(before);
    var asked := Asked(ps, ls, existing);
    AskedKeys(ps, ls, existing);
    Converges(before, asked, mid, made, gone);
    forall i | 0 <= i < |ps|
      ensures AccountFor(ListedObjects(mid), ps[i].name) == AccountFor(existing, ps[i].name)
    {
      SameAccount(ps, ls, existing, mid, i);
    }
    AskedAgain(ps, ls, existing, later, ListedObjects(mid));
  }

  // ---- When the second call fails ----

  /** Some listed deployment the set keeps runs under an account named like a listed deployment
      the set does not keep: the call deletes that account with its owner. */
  ghost predicate Dropped(s: State, ps: seq<Params>) {
    exists i :: 0 <= i < |ps| && Drops(s, ps, i)
  }

  ghost predicate Drops(s: State, ps: seq<Params>, i: nat)
    requires i < |ps|
  {
    && Key(DeploymentKind, ps[i].name) in Listed(s)
    && Key(DeploymentKind, AccountFor(ListedObjects(s), ps[i].name)) in Listed(s) - AllNames(ps)
  }

  lemma {:induction false} InNewAccounts(ps: seq<Params>, existing: Objects, n: string)
    ensures n in NewAccounts(ps, existing) <==>
              exists i :: 0 <= i < |ps| && ps[i].name == n && Key(DeploymentKind, n) !in existing
  {
    if ps == [] {
    } else {
      var m := |ps| - 1;
      InNewAccounts(ps[..m], existing, n);
      if i :| 0 <= i < |ps| && ps[i].name == n && Key(DeploymentKind, n) !in existing {
        assert i < m ==> ps[..m][i] == ps[i];
      }
    }
  }

  /** The account an accepted entry's deployment runs under is there once all are in place. */
  lemma AccountIsThere(s: State, ps: seq<Params>, i: nat)
    requires i < |ps| && Accepts(s, ps, i)
    ensures AccountFor(ListedObjects(s), ps[i].name) in s.accounts + NewAccounts(ps, ListedObjects(s))
  {
    var existing := ListedObjects(s);
    var n := AccountFor(existing, ps[i].name);
    InNewAccounts(ps, existing, n);
    InNewAccounts(ps[..i], existing, n);
    if Key(DeploymentKind, ps[i].name) in Listed(s) {
      if j :| 0 <= j < i && ps[..i][j].name == n && Key(DeploymentKind, n) !in existing {
        assert ps[j].name == n;
      }
    } else {
      assert ps[i].name == n && Key(DeploymentKind, n) !in existing;
    }
  }

  /** The state a clean call leaves: exactly the asked names marked, under the same accounts, and
      the owners of the deployments that went without theirs. */
  ghost predicate Left(before: State, ps: seq<Params>, mid: State) {
    && Listed(mid) == AllNames(ps) && SameAccounts(before, mid, ps)
    && mid.accounts == before.accounts + NewAccounts(ps, ListedObjects(before)) - Owners(Listed(before) - AllNames(ps))
  }

  lemma AcceptedAgain(before: State, ps: seq<Params>, mid: State, i: nat)
    requires Left(before, ps, mid) && i < |ps| && Accepts(before, ps, i)
    ensures Accepts(mid, ps, i) <==> !Drops(before, ps, i)
  {
    var n := AccountFor(ListedObjects(before), ps[i].name);
    assert Key(DeploymentKind, ps[i].name) in Names(ps[i]);
    forall k | k in Names(ps[i]) ensures k in Listed(mid) {
      InAllNames(ps, i, k);
    }
    AccountIsThere(before, ps, i);
    InNewAccounts(ps[..i], ListedObjects(mid), n);
    forall j | 0 <= j < i ensures Key(DeploymentKind, ps[..i][j].name) in Listed(mid) {
      assert ps[..i][j] == ps[j];
      InAllNames(ps, j, Key(DeploymentKind, ps[j].name));
    }
    if Key(DeploymentKind, ps[i].name) !in Listed(before) {
      assert n == ps[i].name;
    }
  }

  /** After a clean call the same set is refused exactly when the call dropped an account. */
  lemma RefusedAgain(before: State, ps: seq<Params>, mid: State)
    requires Left(before, ps, mid) && !Refused(before, ps)
    ensures Refused(mid, ps) <==> Dropped(before, ps)
  {
    AcceptsMeans(before, ps);
    AcceptsMeans(mid, ps);
    forall i | 0 <= i < |ps| ensures Accepts(mid, ps, i) <==> !Drops(before, ps, i) {
      AcceptedAgain(before, ps, mid, i);
    }
  }

  /** Where deployments run under their own accounts, none is missing and none is dropped. */
  lemma OwnAccountsNeverDrop(s: State, ps: seq<Params>)
    requires WellKept(s)
    ensures !Dropped(s, ps) && !MissingAccount(s, ps)
  {
    ListingKeepsAccounts(s);
    forall i | 0 <= i < |ps| && Key(DeploymentKind, ps[i].name) in Listed(s)
      ensures AccountFor(ListedObjects(s), ps[i].name) in s.accounts && !Drops(s, ps, i)
    {
      var k := Key(DeploymentKind, ps[i].name);
      assert k in ListedObjects(s) && k in Names(ps[i]);
      InAllNames(ps, i, k);
    }
  }

  /** A namespace in which the first call succeeds and drops an account: the entry's deployment
      runs under the account of another one, which the set does not keep. */
  lemma DroppingNamespace(p: Params) returns (s: State)
    ensures !Refused(s, [p]) && Dropped(s, [p])
  {
    var other := p.name + "x";
    var mark: Labels := map["created-by" := "maos"];
    var o := Deployment(mark, mark, mark, p.workload, other);
    var k, l := Key(DeploymentKind, p.name), Key(DeploymentKind, other);
    assert p.name != other by { assert |other| == |p.name| + 1; }
    s := State(map[k := o, l := o], {other}, map[]);
    assert [p][..0] == [] && AllNames([p]) == Names(p);
    assert k in Listed(s) && l in Listed(s) && l !in Names(p);
    assert Accepts(s, [p], 0);
    AcceptsMeans(s, [p]);
    assert Drops(s, [p], 0);
  }

  /** Two calls in a row for the same set. Without faults the first succeeds exactly when the set
      is not refused, the second then exactly when the first dropped no account, and the second
      does nothing. */
  method ReconcileTwice(c: Cluster, ps: seq<Params>)
    returns (first: bool, second: bool, ghost mid: State, ghost made: set<Key>, ghost gone: set<Key>)
    requires forall i :: 0 <= i < |ps| ==> Buildable(ps[i])
    modifies c, set p | p in ps :: p.labels
    ensures c.faults == old(c.faults) ==> (first <==> !Refused(old(c.s), ps))
    ensures c.faults == old(c.faults) && first ==> (second <==> !Dropped(old(c.s), ps))
    ensures c.faults == old(c.faults) && first && second ==>
              && made == {} && gone == {} && c.s.objects == mid.objects && Listed(c.s) == AllNames(ps)
  {
    ghost var before := c.s;
    ghost var ls := LabelsOf(ps);
    ghost var made1: set<Key>, gone1: set<Key>;
    first, made1, gone1 := UpdateDeploymentSet(c, ps, ls);
    mid := c.s;
    ghost var clean := c.faults == old(c.faults);
    ghost var later := LabelsOf(ps);
    if first && clean {
      AskedOfReconciled(before, ps, ls, mid, made1, gone1, later);
      RefusedAgain(before, ps, mid);
    }
    second, made, gone := UpdateDeploymentSet(c, ps, later);
    if c.faults == old(c.faults) && first && second {
      SecondRunIsQuiet(before, Asked(ps, ls, ListedObjects(before)), mid, made1, gone1, c.s, made, gone);
    }
  }

  /** Had the service and the ingress been built from labels `m`, the next listing would hold the
      names of the entry, and the next call for it would not clash, exactly if `m` has the mark. */
  lemma ListedNeedsTheMark(s: State, p: Params, l: Labels, m: Labels, existing: Objects)
    requires Buildable(p) && (p.hasService || p.hasIngress)
    ensures var objects := WithIngress(WithService(WithDeployment(s.objects, p, Marked(l), existing), p, m), p, m);
            var next := s.(objects := objects);
            && Names(p) <= objects.Keys
            && (Names(p) <= Listed(next) <==> HasMark(m))
            && (TakenOrRepeated(next, [p]) <==> !HasMark(m))
  {
    var objects := WithIngress(WithService(WithDeployment(s.objects, p, Marked(l), existing), p, m), p, m);
    var next := s.(objects := objects);
    assert [p][..0] == [] && AllNames([p]) == Names(p);
    assert Key(DeploymentKind, p.name) in Listed(next);
    assert p.hasService ==> objects[Key(ServiceKind, EffectiveName(p))].labels == m;
    assert p.hasIngress ==> objects[Key(IngressKind, p.name)].labels == m;
    if !HasMark(m) {
      var k := if p.hasService then Key(ServiceKind, EffectiveName(p)) else Key(IngressKind, p.name);
      assert k in Names(p) && k in next.objects && k !in Listed(next);
    }
  }
}
