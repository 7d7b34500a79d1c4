/** The deployment, config suite and config tables, and the statements that change them.
    Each statement is one atomic step. */
module DeploymentTables {
  import opened Common

  datatype Status = Draft | Reviewing | Deploying | Deployed | Failed | Rejected | Retired

  datatype Deployment = Deployment(
    name: string, status: Status, reviewers: seq<string>, suite: Option<int>, createdBy: string,
    lastError: Option<string>)

  /** `deployed` stands for deployed_at being set. */
  datatype Suite = Suite(active: bool, deployed: bool)

  /** What decoding a config's JSON into a map of strings gives; `None` when it is no such map. */
  type Content = Option<map<string, string>>

  datatype Config = Config(
    actor: int, suite: Option<int>, content: Content, minVersion: Option<seq<int>>, createdBy: string,
    createdAt: int)

  datatype Actor = Actor(name: string, configurable: bool, migratable: bool)

  datatype Tables = Tables(
    actors: map<int, Actor>,
    deployments: map<int, Deployment>,
    suites: map<int, Suite>,
    configs: map<int, Config>,
    nextDeployment: int,
    nextSuite: int,
    nextConfig: int)

  const EMPTY := Tables(map[], map[], map[], map[], 1, 1, 1)

  predicate HasStatus(t: Tables, id: int, status: Status) {
    id in t.deployments && t.deployments[id].status == status
  }

  function WithStatus(t: Tables, id: int, status: Status): Tables
    requires id in t.deployments
  {
    t.(deployments := t.deployments[id := t.deployments[id].(status := status)])
  }

  /** Deployment names are unique: `id`, new or not, may be called `name`. */
  predicate NameFree(t: Tables, name: string, id: int) {
    forall d :: d in t.deployments && d != id ==> t.deployments[d].name != name
  }

  // ---- Creating and cloning ----

  /** The config rows an INSERT ... SELECT adds: their ids, which come from the id sequence, and
      the version each inherits. */
  datatype Fresh = Fresh(actorOf: map<int, int>, versionOf: map<int, Option<seq<int>>>, next: int)

  /** One new row for every configurable actor. */
  ghost predicate IsFresh(t: Tables, f: Fresh) {
    && f.versionOf.Keys == f.actorOf.Keys
    && t.nextConfig <= f.next
    && (forall c :: c in f.actorOf ==> t.nextConfig <= c < f.next)
    && (forall c :: c in f.actorOf ==> f.actorOf[c] in t.actors && t.actors[f.actorOf[c]].configurable)
    && (forall a :: a in t.actors && t.actors[a].configurable ==> exists c :: c in f.actorOf && f.actorOf[c] == a)
    && (forall c, d :: c in f.actorOf && d in f.actorOf && f.actorOf[c] == f.actorOf[d] ==> c == d)
  }

  /** ORDER BY created_at DESC, id DESC: `c` comes no later than `d`. */
  predicate NoLater(configs: map<int, Config>, c: int, d: int)
    requires c in configs && d in configs
  {
    configs[d].createdAt < configs[c].createdAt || (configs[c].createdAt == configs[d].createdAt && d <= c)
  }

  ghost predicate IsLatest(configs: map<int, Config>, c: int, s: set<int>) {
    c in s && s <= configs.Keys && forall d :: d in s ==> NoLater(configs, c, d)
  }

  lemma LatestExists(configs: map<int, Config>, s: set<int>)
    requires s != {} && s <= configs.Keys
    ensures exists c :: IsLatest(configs, c, s)
  {
    var order := (c, d) => c in configs && d in configs && NoLater(configs, c, d);
    FirstExists(s, order);
    var c :| Leads(c, s, order);
    assert IsLatest(configs, c, s);
  }

  /** The first row of the ordered query, or NULL. */
  ghost function Latest(configs: map<int, Config>, s: set<int>): (r: Option<int>)
    requires s <= configs.Keys
    ensures r.None? <==> s == {}
    ensures r.Some? ==> IsLatest(configs, r.value, s)
  {
    if s == {} then None
    else
      LatestExists(configs, s);
      var c :| IsLatest(configs, c, s);
      Some(c)
  }

  ghost function ConfigsOf(t: Tables, actor: int): set<int> {
    set c | c in t.configs && t.configs[c].actor == actor
  }

  ghost function ConfigsIn(t: Tables, actor: int, suites: set<int>): set<int> {
    set c | c in t.configs && t.configs[c].actor == actor
            && t.configs[c].suite.Some? && t.configs[c].suite.value in suites
  }

  /** The content a new row starts from: the actor's latest in the given suites, else its latest
      anywhere, else an empty object. */
  ghost function InitialContent(t: Tables, actor: int, suites: set<int>): Content {
    var inSuites := Latest(t.configs, ConfigsIn(t, actor, suites));
    var anywhere := Latest(t.configs, ConfigsOf(t, actor));
    if inSuites.Some? then t.configs[inSuites.value].content
    else if anywhere.Some? then t.configs[anywhere.value].content
    else Some(map[])
  }

  /** The config is the actor's, lies in one of the suites, or in any or none where `suites` is
      absent, and no later one does. */
  ghost predicate IsNewest(t: Tables, actor: int, suites: Option<set<int>>, c: int) {
    && Eligible(t, actor, suites, c)
    && forall d :: Eligible(t, actor, suites, d) && d != c ==>
         || t.configs[d].createdAt < t.configs[c].createdAt
         || (t.configs[d].createdAt == t.configs[c].createdAt && d < c)
  }

  ghost predicate Eligible(t: Tables, actor: int, suites: Option<set<int>>, c: int) {
    && c in t.configs && t.configs[c].actor == actor
    && (suites.Some? ==> t.configs[c].suite.Some? && t.configs[c].suite.value in suites.value)
  }

  /** Which config a new row copies, by its place among the rows; with none at all it is empty. */
  lemma InitialContentIs(t: Tables, actor: int, suites: set<int>, c: int)
    ensures IsNewest(t, actor, Some(suites), c) ==> InitialContent(t, actor, suites) == t.configs[c].content
    ensures (forall d :: !Eligible(t, actor, Some(suites), d)) && IsNewest(t, actor, None, c) ==>
              InitialContent(t, actor, suites) == t.configs[c].content
    ensures (forall d :: !Eligible(t, actor, None, d)) ==> InitialContent(t, actor, suites) == Some(map[])
  {
    var inSuites, anywhere := ConfigsIn(t, actor, suites), ConfigsOf(t, actor);
    assert forall d {:trigger Eligible(t, actor, Some(suites), d)} ::
        d in inSuites <==> Eligible(t, actor, Some(suites), d);
    assert forall d {:trigger Eligible(t, actor, None, d)} ::
        d in anywhere <==> Eligible(t, actor, None, d);
    if inSuites != {} {
      var d := Latest(t.configs, inSuites).value;
      assert Eligible(t, actor, Some(suites), d) && Eligible(t, actor, None, d);
    } else if anywhere != {} {
      var d := Latest(t.configs, anywhere).value;
      assert Eligible(t, actor, None, d);
    }
  }

  /** A draft with a suite of its own and one config per configurable actor. */
  ghost function InsertedFrom(
      t: Tables, f: Fresh, suites: set<int>, name: string, reviewers: seq<string>, user: string, now: int): Tables
    requires IsFresh(t, f)
  {
    t.(deployments := t.deployments[t.nextDeployment :=
                        Deployment(name, Draft, reviewers, Some(t.nextSuite), user, None)],
       suites := t.suites[t.nextSuite := Suite(false, false)],
       configs := t.configs + map c | c in f.actorOf ::
                    Config(f.actorOf[c], Some(t.nextSuite), InitialContent(t, f.actorOf[c], suites),
                           f.versionOf[c], user, now),
       nextDeployment := t.nextDeployment + 1, nextSuite := t.nextSuite + 1, nextConfig := f.next)
  }

  ghost function ActiveSuites(t: Tables): set<int> {
    set x | x in t.suites && t.suites[x].active
  }

  /** The suite of the deployment to clone, as a set; NULL matches no row. */
  function SourceSuites(t: Tables, source: int): set<int>
    requires source in t.deployments
  {
    if t.deployments[source].suite.Some? then {t.deployments[source].suite.value} else {}
  }

  /** DISTINCT ON (actor): the latest config of each actor in the suite. */
  ghost function Listing(t: Tables, suite: int): map<int, int> {
    map a | a in t.actors && ConfigsIn(t, a, {suite}) != {} :: Latest(t.configs, ConfigsIn(t, a, {suite})).value
  }

  /** Ids in use lie below their sequences, and rows refer to suites that exist. */
  ghost predicate Sequenced(t: Tables) {
    && (forall d :: d in t.deployments ==>
          d < t.nextDeployment && t.deployments[d].suite.Some? && t.deployments[d].suite.value in t.suites)
    && (forall x :: x in t.suites ==> x < t.nextSuite)
    && (forall c :: c in t.configs ==> c < t.nextConfig
                                       && (t.configs[c].suite.Some? ==> t.configs[c].suite.value in t.suites))
  }

  lemma NewSuiteConfigs(
      t: Tables, f: Fresh, suites: set<int>, name: string, reviewers: seq<string>, user: string, now: int, a: int)
    requires IsFresh(t, f) && Sequenced(t)
    ensures var t' := InsertedFrom(t, f, suites, name, reviewers, user, now);
            forall c :: c in ConfigsIn(t', a, {t.nextSuite}) <==> c in f.actorOf && f.actorOf[c] == a
  {
    var t' := InsertedFrom(t, f, suites, name, reviewers, user, now);
    forall c ensures c in ConfigsIn(t', a, {t.nextSuite}) <==> c in f.actorOf && f.actorOf[c] == a {
      if c in f.actorOf {
        assert t'.configs[c].suite == Some(t.nextSuite);
      } else if c in t.configs {
        assert t'.configs[c] == t.configs[c];
      }
    }
  }

  /** The listing of a new suite: exactly the configurable actors, each with the content it had
      in the suites copied from, whenever it was listed there. */
  lemma NewSuiteListing(
      t: Tables, f: Fresh, suites: set<int>, name: string, reviewers: seq<string>, user: string, now: int, a: int)
    requires IsFresh(t, f) && Sequenced(t)
    ensures var t' := InsertedFrom(t, f, suites, name, reviewers, user, now);
            && (a in Listing(t', t.nextSuite) <==> a in t.actors && t.actors[a].configurable)
            && (a in Listing(t', t.nextSuite) ==>
                  t'.configs[Listing(t', t.nextSuite)[a]].content == InitialContent(t, a, suites))
  {
    var t' := InsertedFrom(t, f, suites, name, reviewers, user, now);
    var s := ConfigsIn(t', a, {t.nextSuite});
    NewSuiteConfigs(t, f, suites, name, reviewers, user, now, a);
    if a in t.actors && t.actors[a].configurable {
      var c :| c in f.actorOf && f.actorOf[c] == a;
      assert c in s;
    }
    if a in Listing(t', t.nextSuite) {
      var c := Latest(t'.configs, s).value;
      assert c in s;
      assert t'.configs[c].content == InitialContent(t, f.actorOf[c], suites);
    }
  }

  /** The new rows themselves: one draft as requested with a suite of its own that was never
      deployed, and configs in the requester's name; every row that was there stays as it is. */
  lemma NewDraft(
      t: Tables, f: Fresh, suites: set<int>, name: string, reviewers: seq<string>, user: string, now: int)
    requires IsFresh(t, f) && Sequenced(t)
    ensures var t' := InsertedFrom(t, f, suites, name, reviewers, user, now);
            var d := t.nextDeployment;
            && d !in t.deployments && HasStatus(t', d, Draft)
            && t'.deployments[d].name == name && t'.deployments[d].reviewers == reviewers
            && t'.deployments[d].createdBy == user && t'.deployments[d].suite == Some(t.nextSuite)
            && t.nextSuite !in t.suites && t'.suites == t.suites[t.nextSuite := Suite(false, false)]
            && (forall e :: e in t.deployments ==> e in t'.deployments && t'.deployments[e] == t.deployments[e])
            && (forall c :: c in t.configs ==> c in t'.configs && t'.configs[c] == t.configs[c])
            && (forall c :: c in t'.configs && c !in t.configs ==>
                  t'.configs[c].createdBy == user && t'.configs[c].suite == Some(t.nextSuite)
                  && t'.configs[c].createdAt == now)
  {
    var t' := InsertedFrom(t, f, suites, name, reviewers, user, now);
    forall c | c in t.configs ensures c in t'.configs && t'.configs[c] == t.configs[c] {
      assert c !in f.actorOf;
    }
  }

  /** Cloning preserves what the source would deploy: every configurable actor listed in the
      source suite is listed in the clone's suite with the same content. */
  lemma ClonePreservesListing(
      t: Tables, f: Fresh, source: int, suite: int, name: string, user: string, now: int, a: int)
    requires IsFresh(t, f) && Sequenced(t)
    requires source in t.deployments && t.deployments[source].suite == Some(suite)
    requires a in Listing(t, suite) && a in t.actors && t.actors[a].configurable
    ensures var t' := InsertedFrom(t, f, SourceSuites(t, source), name, [], user, now);
            && a in Listing(t', t.nextSuite)
            && t'.configs[Listing(t', t.nextSuite)[a]].content == t.configs[Listing(t, suite)[a]].content
  {
    NewSuiteListing(t, f, SourceSuites(t, source), name, [], user, now, a);
  }

  // ---- Publishing ----

  /** Why a deployment cannot be set deploying, or nothing when it can. */
  function Refusal(t: Tables, id: int): Option<string> {
    if id !in t.deployments then Some("deployment not found")
    else if t.deployments[id].status !in {Reviewing, Draft} then
      Some("deployment must be in reviewing or draft status")
    else if exists d :: d in t.deployments && t.deployments[d].status == Deploying then
      Some("others are deploying")
    else None
  }

  /** Deactivates every other suite and activates this one. */
  function Activated(t: Tables, suite: int): Tables {
    t.(suites := map x | x in t.suites ::
         if x == suite then Suite(true, true) else t.suites[x].(active := false))
  }

  /** Retires the deployed deployment and marks a deploying one deployed. */
  function Published(t: Tables, id: int): Tables {
    t.(deployments := map d | d in t.deployments ::
         if t.deployments[d].status == Deployed then t.deployments[d].(status := Retired)
         else if d == id && t.deployments[d].status == Deploying then t.deployments[d].(status := Deployed)
         else t.deployments[d])
  }

  /** The tables once the worker's transaction has committed. */
  function Finished(t: Tables, id: int): Tables
    requires id in t.deployments && t.deployments[id].suite.Some?
  {
    Published(Activated(t, t.deployments[id].suite.value), id)
  }

  /** The failure write: unconditional, and a no-op only when the row is gone. */
  function FailureWritten(t: Tables, id: int, error: string): Tables {
    if id !in t.deployments then t
    else t.(deployments := t.deployments[id := t.deployments[id].(status := Failed, lastError := Some(error))])
  }

  // ---- Editing ----

  /** The suite was never deployed, and the updater created the config or reviews its deployment. */
  predicate MayEdit(t: Tables, c: int, user: string) {
    && c in t.configs && t.configs[c].suite.Some?
    && t.configs[c].suite.value in t.suites && !t.suites[t.configs[c].suite.value].deployed
    && (|| t.configs[c].createdBy == user
        || exists d :: d in t.deployments && t.deployments[d].suite == t.configs[c].suite
                       && user in t.deployments[d].reviewers)
  }

  function Or<T>(given: Option<T>, kept: T): T {
    if given.Some? then given.value else kept
  }

  /** COALESCE keeps what is there where the statement is given NULL. */
  function Edited(t: Tables, c: int, content: Option<Content>, minVersion: Option<seq<int>>): Tables
    requires c in t.configs
  {
    var was := t.configs[c];
    t.(configs := t.configs[c := was.(content := Or(content, was.content),
                                      minVersion := if minVersion.Some? then minVersion else was.minVersion)])
  }

  // ---- The handlers, statement by statement ----

  datatype Reply = Done | NotFound | BadRequest(reason: string) | ServerError

  class Store {
    var actors: map<int, Actor>
    var deployments: map<int, Deployment>
    var suites: map<int, Suite>
    var configs: map<int, Config>
    var nextDeployment: int
    var nextSuite: int
    var nextConfig: int
    /** How many steps have failed for a reason outside the tables. */
    ghost var faults: nat

    ghost function State(): Tables
      reads this
    {
      Tables(actors, deployments, suites, configs, nextDeployment, nextSuite, nextConfig)
    }

    /** Renames a draft or replaces its reviewers; absent values keep what is there. A name in use
        violates the unique index. */
    method UpdateDeployment(id: int, name: Option<string>, reviewers: Option<seq<string>>) returns (r: Reply)
      modifies this`deployments
      ensures r.Done? || r.NotFound? || r.ServerError?
      ensures r.NotFound? <==> !HasStatus(old(State()), id, Draft)
      ensures r.Done? <==> HasStatus(old(State()), id, Draft)
                           && (name.Some? ==> NameFree(old(State()), name.value, id))
      ensures r.Done? ==> && State() == old(State()).(deployments := deployments)
                          && deployments.Keys == old(deployments.Keys)
                          && (forall d :: d in deployments && d != id ==> deployments[d] == old(deployments[d]))
                          && deployments[id].status == Draft && deployments[id].suite == old(deployments[id].suite)
                          && (name.Some? ==> deployments[id].name == name.value)
                          && (name.None? ==> deployments[id].name == old(deployments[id].name))
                          && (reviewers.Some? ==> deployments[id].reviewers == reviewers.value)
                          && (reviewers.None? ==> deployments[id].reviewers == old(deployments[id].reviewers))
      ensures !r.Done? ==> State() == old(State())
    {
      if id !in deployments || deployments[id].status != Draft {
        return NotFound;
      }
      var d := deployments[id];
      if name.Some? {
        if exists e :: e in deployments && e != id && deployments[e].name == name.value {
          return ServerError;
        }
        d := d.(name := name.value);
      }
      if reviewers.Some? {
        d := d.(reviewers := reviewers.value);
      }
      deployments := deployments[id := d];
      return Done;
    }

    method SubmitDeployment(id: int) returns (r: Reply)
      modifies this`deployments
      ensures r.NotFound? <==> id !in old(deployments)
      ensures r.Done? <==> HasStatus(old(State()), id, Draft) && old(deployments[id]).suite.Some?
                           && old(deployments[id]).reviewers != []
      ensures State() == if r.Done? then WithStatus(old(State()), id, Reviewing) else old(State())
    {
      if id !in deployments {
        return NotFound;
      }
      var d := deployments[id];
      if d.status != Draft {
        return BadRequest("Deployment must be in draft status to be submitted");
      }
      if d.suite.None? {
        return BadRequest("Deployment must have a config suite to be submitted");
      }
      if |d.reviewers| == 0 {
        return BadRequest("Deployment must have at least one reviewer");
      }
      deployments := deployments[id := d.(status := Reviewing)];
      return Done;
    }

    method RejectDeployment(id: int, user: string) returns (r: Reply)
      modifies this`deployments
      ensures r.BadRequest? <==> user == ""
      ensures r.Done? <==> user != "" && HasStatus(old(State()), id, Reviewing) && user in old(deployments[id]).reviewers
      ensures State() == if r.Done? then WithStatus(old(State()), id, Rejected) else old(State())
    {
      if user == "" {
        return BadRequest("Missing required field");
      }
      if id !in deployments || deployments[id].status != Reviewing || user !in deployments[id].reviewers {
        return NotFound;
      }
      deployments := deployments[id := deployments[id].(status := Rejected)];
      return Done;
    }

    method DeleteDeployment(id: int) returns (r: Reply)
      modifies this`deployments
      ensures r.Done? <==> HasStatus(old(State()), id, Draft)
      ensures State() == if r.Done? then old(State()).(deployments := old(deployments) - {id}) else old(State())
    {
      if id !in deployments || deployments[id].status != Draft {
        return NotFound;
      }
      deployments := deployments - {id};
      return Done;
    }

    /** Sets the deployment deploying; the caller starts a worker exactly when this is done. */
    method PublishDeployment(id: int, user: string) returns (r: Reply)
      modifies this`deployments
      ensures r.Done? <==> && user != "" && id in old(deployments)
                           && old(deployments[id]).status in {Draft, Reviewing}
                           && forall d :: d in old(deployments) ==> old(deployments[d]).status != Deploying
      ensures r == BadRequest("Missing required field") <==> user == ""
      ensures r == BadRequest("deployment not found") <==> user != "" && id !in old(deployments)
      ensures r == BadRequest("deployment must be in reviewing or draft status") <==>
                user != "" && id in old(deployments) && old(deployments[id]).status !in {Draft, Reviewing}
      ensures r.Done? || r.BadRequest?
      ensures r.Done? <==> user != "" && Refusal(old(State()), id).None?
      ensures State() == if r.Done? then WithStatus(old(State()), id, Deploying) else old(State())
    {
      if user == "" {
        return BadRequest("Missing required field");
      }
      if id !in deployments {
        return BadRequest("deployment not found");
      }
      var othersDeploying := exists d :: d in deployments && deployments[d].status == Deploying;
      if deployments[id].status != Reviewing && deployments[id].status != Draft {
        return BadRequest("deployment must be in reviewing or draft status");
      }
      if othersDeploying {
        return BadRequest("others are deploying");
      }
      deployments := deployments[id := deployments[id].(status := Deploying)];
      return Done;
    }

    /** The worker's closing transaction. Any step may fail, and then nothing has happened. */
    method FinishPublishing(id: int) returns (ok: bool)
      modifies this`deployments, this`suites, this`faults
      ensures ok ==> && HasStatus(old(State()), id, Deploying) && old(deployments[id]).suite.Some?
                     && old(deployments[id]).suite.value in old(suites)
                     && State() == Finished(old(State()), id)
      ensures !ok ==> State() == old(State())
      ensures ok ==> faults == old(faults)
      ensures !ok && faults == old(faults) ==>
                || !HasStatus(old(State()), id, Deploying) || old(deployments[id]).suite.None?
                || old(deployments[id]).suite.value !in old(suites)
    {
      var savedDeployments, savedSuites := deployments, suites;
      if id !in deployments || deployments[id].status != Deploying || deployments[id].suite.None? {
        return false;
      }
      var suite := deployments[id].suite.value;
      if suite !in suites {
        return false;
      }
      suites := map x | x in suites :: if x == suite then suites[x] else suites[x].(active := false);
      suites := suites[suite := Suite(true, true)];
      assert State() == Activated(old(State()), suite);
      var retiring := set d | d in deployments && deployments[d].status == Deployed;
      deployments := map d | d in deployments ::
        if d in retiring then deployments[d].(status := Retired) else deployments[d];
      deployments := deployments[id := deployments[id].(status := Deployed)];
      assert deployments == Published(old(State()), id).deployments;
      // Publishing to the suite store, rotating keys, updating the cluster and committing.
      var fails: bool := *;
      if fails {
        deployments, suites, faults := savedDeployments, savedSuites, faults + 1;
        return false;
      }
      return true;
    }

    method UpdateLastError(id: int, error: string)
      modifies this`deployments
      ensures State() == FailureWritten(old(State()), id, error)
      ensures deployments.Keys == old(deployments).Keys
      ensures id in deployments ==>
                && deployments[id].status == Failed && deployments[id].lastError == Some(error)
                && deployments[id].suite == old(deployments[id]).suite
    {
      if id in deployments {
        deployments := deployments[id := deployments[id].(status := Failed, lastError := Some(error))];
      }
    }

    method UpdateConfig(c: int, content: Option<Content>, minVersion: Option<seq<int>>, user: string)
      returns (r: Reply)
      modifies this`configs
      ensures r.Done? <==> MayEdit(old(State()), c, user)
      ensures r.Done? <==>
                && c in old(configs) && old(configs[c]).suite.Some?
                && var suite := old(configs[c]).suite.value;
                   && suite in old(suites) && !old(suites)[suite].deployed
                   && (|| old(configs[c]).createdBy == user
                       || exists d :: d in old(deployments) && old(deployments)[d].suite == Some(suite)
                                      && user in old(deployments)[d].reviewers)
      ensures r.Done? ==>
                && configs.Keys == old(configs).Keys
                && (forall d :: d in configs && d != c ==> configs[d] == old(configs)[d])
                && configs[c].content == (if content.Some? then content.value else old(configs[c]).content)
                && configs[c].minVersion == (if minVersion.Some? then minVersion else old(configs[c]).minVersion)
                && configs[c].actor == old(configs[c]).actor && configs[c].suite == old(configs[c]).suite
      ensures State() == if r.Done? then Edited(old(State()), c, content, minVersion) else old(State())
    {
      if c !in configs || configs[c].suite.None? {
        return NotFound;
      }
      var suite := configs[c].suite.value;
      if suite !in suites || suites[suite].deployed {
        return NotFound;
      }
      var reviews := exists d :: d in deployments && deployments[d].suite == Some(suite)
                                 && user in deployments[d].reviewers;
      if configs[c].createdBy != user && !reviews {
        return NotFound;
      }
      var row := configs[c];
      if content.Some? {
        row := row.(content := content.value);
      }
      if minVersion.Some? {
        row := row.(minVersion := minVersion);
      }
      configs := configs[c := row];
      return Done;
    }
  }
}
