/** Every run of the deployment lifecycle: requests that change the tables, and the background
    workers that migrate, publish, fail, or vanish with their process. */
module Publishing {
  import opened Common
  import opened DeploymentTables
  import Jobs = MigrationJobs

  /** Where a worker stands: reading the configs, waiting for the migrations, about to run its
      closing transaction, or about to record its failure. */
  datatype Phase = Loading | Migrating | Finishing | Reporting

  /** `configs` are the rows the worker has read. */
  datatype Worker = Worker(deployment: int, phase: Phase, configs: seq<Jobs.Config>)

  /** `migrated` records the deployments whose migrations were all seen to succeed. */
  datatype State = State(t: Tables, workers: map<int, Worker>, migrated: set<int>)

  const INIT := State(EMPTY, map[], {})

  datatype Action =
    | SetActor(id: int, actor: Actor)
    | Create(newRows: Fresh, name: string, reviewers: seq<string>, user: string, now: int)
    | Clone(source: int, newRows: Fresh, name: string, user: string, now: int)
    | Update(id: int, name: string, reviewers: seq<string>)
    | Submit(id: int)
    | Reject(id: int, user: string)
    | Delete(id: int)
    | EditConfig(config: int, content: Option<Content>, minVersion: Option<seq<int>>, user: string)
    | Publish(id: int, worker: int)
    | Load(worker: int, actors: Option<seq<int>>)
    | Migrate(worker: int, names: set<string>, watch: Jobs.Watch, ticks: nat, faulty: bool)
    | Finish(worker: int)
    | FailToFinish(worker: int)
    | Report(worker: int, error: string)
    | Vanish(worker: int)

  ghost predicate InPhase(s: State, w: int, phase: Phase) {
    w in s.workers && s.workers[w].phase == phase
  }

  function SuiteOf(t: Tables, d: int): Option<int> {
    if d in t.deployments then t.deployments[d].suite else None
  }

  /** ORDER BY actor: every actor listed in the suite, once. */
  ghost predicate InOrder(actors: seq<int>, t: Tables, suite: int) {
    && (forall i, j :: 0 <= i < j < |actors| ==> actors[i] < actors[j])
    && (forall a :: a in actors <==> a in Listing(t, suite))
  }

  /** The rows of the listing query. */
  ghost function Rows(t: Tables, suite: int, actors: seq<int>): seq<Jobs.Config>
    requires InOrder(actors, t, suite)
  {
    seq(|actors|, i requires 0 <= i < |actors| => RowOf(t, suite, actors[i]))
  }

  ghost function RowOf(t: Tables, suite: int, a: int): Jobs.Config
    requires a in Listing(t, suite)
  {
    Jobs.Config(t.actors[a].name, t.actors[a].migratable, t.configs[Listing(t, suite)[a]].content)
  }

  /** The migrations of a worker's configs end without an error: none of them stands in the way.
      `names` are the jobs that exist already, and `ticks` how often the jobs can be looked at. */
  ghost predicate Passes(w: Worker, names: set<string>, watch: Jobs.Watch, ticks: nat) {
    forall i :: 0 <= i < |w.configs| ==>
      !Jobs.Blocks(w.configs, Jobs.Wanted(w.configs, w.deployment), i, names, watch, ticks)
  }

  /** What creating and cloning ask of a request: a name, not in use, and a user. */
  ghost predicate Accepted(t: Tables, name: string, user: string) {
    name != "" && user != "" && NameFree(t, name, t.nextDeployment)
  }

  /** Requests that are refused change nothing and are left out. `Vanish` covers a crash of the
      process as well as a failure write that fails itself. */
  ghost predicate Enabled(a: Action, s: State) {
    match a
    case SetActor(id, actor) => forall a :: a in s.t.actors && a != id ==> s.t.actors[a].name != actor.name
    case Create(f, name, _, user, _) => Accepted(s.t, name, user) && IsFresh(s.t, f)
    case Clone(source, f, name, user, _) =>
      Accepted(s.t, name, user) && source in s.t.deployments && IsFresh(s.t, f)
    case Update(id, name, _) => HasStatus(s.t, id, Draft) && NameFree(s.t, name, id)
    case Submit(id) => HasStatus(s.t, id, Draft) && s.t.deployments[id].reviewers != []
    case Reject(id, user) => user != "" && HasStatus(s.t, id, Reviewing) && user in s.t.deployments[id].reviewers
    case Delete(id) => HasStatus(s.t, id, Draft)
    case EditConfig(c, _, _, user) => MayEdit(s.t, c, user)
    case Publish(id, w) => Refusal(s.t, id).None? && w !in s.workers
    case Load(w, actors) =>
      && InPhase(s, w, Loading)
      && (actors.Some? ==> SuiteOf(s.t, s.workers[w].deployment).Some?
                           && InOrder(actors.value, s.t, SuiteOf(s.t, s.workers[w].deployment).value))
    case Migrate(w, _, _, _, _) => InPhase(s, w, Migrating)
    case Finish(w) =>
      && InPhase(s, w, Finishing)
      && HasStatus(s.t, s.workers[w].deployment, Deploying)
      && s.t.deployments[s.workers[w].deployment].suite.Some?
    case FailToFinish(w) => InPhase(s, w, Finishing)
    case Report(w, _) => InPhase(s, w, Reporting)
    case Vanish(w) => w in s.workers
  }

  ghost function Moved(s: State, w: int, phase: Phase): State
    requires w in s.workers
  {
    s.(workers := s.workers[w := s.workers[w].(phase := phase)])
  }

  ghost function Apply(a: Action, s: State): State
    requires Enabled(a, s)
  {
    match a
    case SetActor(id, actor) => s.(t := s.t.(actors := s.t.actors[id := actor]))
    case Create(f, name, reviewers, user, now) =>
      s.(t := InsertedFrom(s.t, f, ActiveSuites(s.t), name, reviewers, user, now))
    case Clone(source, f, name, user, now) =>
      s.(t := InsertedFrom(s.t, f, SourceSuites(s.t, source), name, [], user, now))
    case Update(id, name, reviewers) =>
      s.(t := s.t.(deployments := s.t.deployments[id :=
                     s.t.deployments[id].(name := name, reviewers := reviewers)]))
    case Submit(id) => s.(t := WithStatus(s.t, id, Reviewing))
    case Reject(id, _) => s.(t := WithStatus(s.t, id, Rejected))
    case Delete(id) => s.(t := s.t.(deployments := s.t.deployments - {id}))
    case EditConfig(c, content, min, _) => s.(t := Edited(s.t, c, content, min))
    case Publish(id, w) =>
      s.(t := WithStatus(s.t, id, Deploying), workers := s.workers[w := Worker(id, Loading, [])])
    case Load(w, actors) =>
      if actors.None? then Moved(s, w, Reporting)
      else
        var d := s.workers[w].deployment;
        s.(workers := s.workers[w := Worker(d, Migrating, Rows(s.t, SuiteOf(s.t, d).value, actors.value))])
    case Migrate(w, names, watch, ticks, faulty) =>
      if !faulty && Passes(s.workers[w], names, watch, ticks)
      then Moved(s, w, Finishing).(migrated := s.migrated + {s.workers[w].deployment})
      else Moved(s, w, Reporting)
    case Finish(w) => s.(t := Finished(s.t, s.workers[w].deployment), workers := s.workers - {w})
    case FailToFinish(w) => Moved(s, w, Reporting)
    case Report(w, error) =>
      s.(t := FailureWritten(s.t, s.workers[w].deployment, error), workers := s.workers - {w})
    case Vanish(w) => s.(workers := s.workers - {w})
  }

  // ---- The invariant ----

  ghost predicate AtMostOne(t: Tables, status: Status) {
    forall d, e :: HasStatus(t, d, status) && HasStatus(t, e, status) ==> d == e
  }

  /** Deployments own suites of their own. */
  ghost predicate Owned(t: Tables) {
    forall d, e :: d in t.deployments && e in t.deployments && d != e ==>
      t.deployments[d].suite != t.deployments[e].suite
  }

  ghost predicate Owns(t: Tables, d: int, x: int) {
    d in t.deployments && t.deployments[d].suite == Some(x)
  }

  /** A suite is active exactly while its deployment is deployed, and has been deployed exactly
      when its deployment is deployed or retired. */
  ghost predicate InStep(t: Tables) {
    && (forall x :: x in t.suites && t.suites[x].active ==>
          exists d :: Owns(t, d, x) && t.deployments[d].status == Deployed)
    && (forall x :: x in t.suites && t.suites[x].deployed ==>
          exists d :: Owns(t, d, x) && t.deployments[d].status in {Deployed, Retired})
    && (forall d, x :: Owns(t, d, x) && x in t.suites ==>
          && (t.suites[x].active <==> t.deployments[d].status == Deployed)
          && (t.suites[x].deployed <==> t.deployments[d].status in {Deployed, Retired}))
  }

  /** The one live worker's deployment is deploying, and only migrated deployments get further. */
  ghost predicate WorkersFit(s: State) {
    && (forall w :: w in s.workers ==> HasStatus(s.t, s.workers[w].deployment, Deploying))
    && (forall v, w :: v in s.workers && w in s.workers ==> v == w)
    && (forall w :: InPhase(s, w, Finishing) ==> s.workers[w].deployment in s.migrated)
    && (forall d :: d in s.t.deployments && s.t.deployments[d].status in {Deployed, Retired} ==> d in s.migrated)
    && (forall d :: d in s.migrated ==> d < s.t.nextDeployment)
  }

  ghost predicate Inv(s: State) {
    && Sequenced(s.t) && Owned(s.t) && InStep(s.t) && WorkersFit(s)
    && AtMostOne(s.t, Deploying) && AtMostOne(s.t, Deployed)
  }

  /** The steps that leave suites alone and move one deployment between statuses with an
      undeployed suite. */
  lemma StatusStep(t: Tables, id: int, status: Status)
    requires Sequenced(t) && Owned(t) && InStep(t) && id in t.deployments
    requires {t.deployments[id].status, status} !! {Deployed, Retired}
    ensures var t' := WithStatus(t, id, status);
            Sequenced(t') && Owned(t') && InStep(t')
  {
    var t' := WithStatus(t, id, status);
    forall x | x in t'.suites && t'.suites[x].active
      ensures exists d :: Owns(t', d, x) && t'.deployments[d].status == Deployed
    {
      var d :| Owns(t, d, x) && t.deployments[d].status == Deployed;
      assert Owns(t', d, x);
    }
    forall x | x in t'.suites && t'.suites[x].deployed
      ensures exists d :: Owns(t', d, x) && t'.deployments[d].status in {Deployed, Retired}
    {
      var d :| Owns(t, d, x) && t.deployments[d].status in {Deployed, Retired};
      assert Owns(t', d, x);
    }
    forall d, x | Owns(t', d, x) && x in t'.suites
      ensures && (t'.suites[x].active <==> t'.deployments[d].status == Deployed)
              && (t'.suites[x].deployed <==> t'.deployments[d].status in {Deployed, Retired})
    {
      assert Owns(t, d, x);
    }
  }

  /** Statements that leave every status, suite and ownership as it was. */
  lemma SameShape(t: Tables, t': Tables)
    requires InStep(t) && Owned(t) && t'.suites == t.suites && t'.deployments.Keys == t.deployments.Keys
    requires forall d :: d in t.deployments ==>
               && t'.deployments[d].status == t.deployments[d].status
               && t'.deployments[d].suite == t.deployments[d].suite
    ensures InStep(t') && Owned(t')
    ensures forall d, status :: HasStatus(t', d, status) <==> HasStatus(t, d, status)
  {
    assert forall d, x :: Owns(t', d, x) <==> Owns(t, d, x);
  }

  lemma InsertSequenced(
      t: Tables, f: Fresh, suites: set<int>, name: string, reviewers: seq<string>, user: string, now: int)
    requires Sequenced(t) && IsFresh(t, f)
    ensures Sequenced(InsertedFrom(t, f, suites, name, reviewers, user, now))
  {
    var t' := InsertedFrom(t, f, suites, name, reviewers, user, now);
    forall c | c in t'.configs
      ensures c < t'.nextConfig && (t'.configs[c].suite.Some? ==> t'.configs[c].suite.value in t'.suites)
    {
      if c in f.actorOf {
        assert t'.configs[c].suite == Some(t.nextSuite);
      } else {
        assert t'.configs[c] == t.configs[c];
      }
    }
  }

  /** One more draft, with a new suite that was never active. */
  lemma InsertShape(t: Tables, t': Tables, draft: Deployment)
    requires Sequenced(t) && Owned(t) && InStep(t)
    requires draft.status == Draft && draft.suite == Some(t.nextSuite)
    requires t'.deployments == t.deployments[t.nextDeployment := draft]
    requires t'.suites == t.suites[t.nextSuite := Suite(false, false)]
    ensures Owned(t') && InStep(t')
  {
    assert forall d, x :: Owns(t', d, x) <==> Owns(t, d, x) || (d == t.nextDeployment && x == t.nextSuite);
  }

  lemma DeleteStep(t: Tables, id: int)
    requires Sequenced(t) && Owned(t) && InStep(t) && HasStatus(t, id, Draft)
    ensures var t' := t.(deployments := t.deployments - {id});
            Sequenced(t') && Owned(t') && InStep(t')
  {
    var t' := t.(deployments := t.deployments - {id});
    assert forall d, x :: Owns(t', d, x) <==> Owns(t, d, x) && d != id;
  }

  /** The closing transaction keeps the tables in step: the old suite and deployment leave
      together, the new ones arrive together. */
  lemma FinishStep(t: Tables, id: int)
    requires Sequenced(t) && Owned(t) && InStep(t) && HasStatus(t, id, Deploying)
    requires AtMostOne(t, Deploying) && AtMostOne(t, Deployed)
    ensures var t' := Finished(t, id);
            && Sequenced(t') && Owned(t') && InStep(t')
            && (forall d :: HasStatus(t', d, Deployed) <==> d == id)
            && (forall d :: !HasStatus(t', d, Deploying))
            && (forall d :: HasStatus(t', d, Retired) <==> HasStatus(t, d, Retired) || HasStatus(t, d, Deployed))
            && (forall x :: x in t'.suites ==> (t'.suites[x].active <==> t.deployments[id].suite == Some(x)))
  {
    var t' := Finished(t, id);
    var suite := t.deployments[id].suite.value;
    assert forall d, x :: Owns(t', d, x) <==> Owns(t, d, x);
    assert Owns(t, id, suite);
    forall d | HasStatus(t', d, Deploying) ensures false {
      assert HasStatus(t, d, Deploying);
    }
    forall x | x in t'.suites && t'.suites[x].deployed
      ensures exists d :: Owns(t', d, x) && t'.deployments[d].status in {Deployed, Retired}
    {
      if x != suite {
        var d :| Owns(t, d, x) && t.deployments[d].status in {Deployed, Retired};
        assert Owns(t', d, x);
      } else {
        assert Owns(t', id, x);
      }
    }
    forall d, x | Owns(t', d, x) && x in t'.suites
      ensures && (t'.suites[x].active <==> t'.deployments[d].status == Deployed)
              && (t'.suites[x].deployed <==> t'.deployments[d].status in {Deployed, Retired})
    {
      assert Owns(t, d, x);
      assert x == suite <==> d == id;
    }
  }

  // ---- Status graph ----

  /** The edges a deployment's status may take in one step. */
  ghost predicate Edge(was: Status, now: Status) {
    || now == was
    || (was == Draft && now in {Reviewing, Deploying})
    || (was == Reviewing && now in {Rejected, Deploying})
    || (was == Deploying && now in {Deployed, Failed})
    || (was == Deployed && now == Retired)
  }

  /** Which action takes which edge: the statuses move exactly when the request or worker that
      owns the edge acts, and only drafts disappear. */
  lemma StatusMoves(a: Action, s: State, d: int)
    requires Inv(s) && Enabled(a, s) && d in s.t.deployments
    ensures var t, t' := s.t, Apply(a, s).t;
            var was := t.deployments[d].status;
            if d !in t'.deployments then a == Delete(d) && was == Draft
            else
              var now := t'.deployments[d].status;
              && Edge(was, now)
              && t'.deployments[d].suite == t.deployments[d].suite
              && (now == Reviewing && was != Reviewing <==> a == Submit(d))
              && (now == Rejected && was != Rejected <==> a.Reject? && a.id == d)
              && (now == Deploying && was != Deploying <==> a.Publish? && a.id == d)
              && (now == Deployed && was != Deployed <==> a.Finish? && s.workers[a.worker].deployment == d)
              && (now == Retired && was != Retired <==> a.Finish? && was == Deployed)
              && (now == Failed && was != Failed <==> a.Report? && s.workers[a.worker].deployment == d)
  {
  }

  /** The actions that touch no status, no suite and no id sequence. */
  ghost predicate IsQuiet(a: Action) {
    || a.SetActor? || a.Update? || a.EditConfig? || a.Load? || a.Migrate? || a.FailToFinish? || a.Vanish?
  }

  lemma QuietStep(a: Action, s: State)
    requires Inv(s) && Enabled(a, s) && IsQuiet(a)
    ensures var t' := Apply(a, s).t;
            Sequenced(t') && Owned(t') && InStep(t')
  {
    SameShape(s.t, Apply(a, s).t);
  }

  lemma InsertStep(a: Action, s: State)
    requires Inv(s) && Enabled(a, s) && (a.Create? || a.Clone?)
    ensures var t' := Apply(a, s).t;
            Sequenced(t') && Owned(t') && InStep(t')
  {
    var t, t' := s.t, Apply(a, s).t;
    match a {
      case Create(f, name, reviewers, user, now) =>
        InsertSequenced(t, f, ActiveSuites(t), name, reviewers, user, now);
      case Clone(source, f, name, user, now) =>
        InsertSequenced(t, f, SourceSuites(t, source), name, [], user, now);
    }
    InsertShape(t, t', t'.deployments[t.nextDeployment]);
  }

  /** Suites and their ownership survive every step. */
  lemma StepKeepsShape(a: Action, s: State)
    requires Inv(s) && Enabled(a, s)
    ensures var t' := Apply(a, s).t;
            Sequenced(t') && Owned(t') && InStep(t')
  {
    var t, t' := s.t, Apply(a, s).t;
    if IsQuiet(a) {
      QuietStep(a, s);
    } else if a.Create? || a.Clone? {
      InsertStep(a, s);
    } else {
      match a {
        case Submit(id) => StatusStep(t, id, Reviewing);
        case Reject(id, _) => StatusStep(t, id, Rejected);
        case Delete(id) => DeleteStep(t, id);
        case Publish(id, w) => StatusStep(t, id, Deploying);
        case Finish(w) => FinishStep(t, s.workers[w].deployment);
        case Report(w, error) =>
          var id := s.workers[w].deployment;
          StatusStep(t, id, Failed);
          SameShape(WithStatus(t, id, Failed), t');
      }
    }
  }

  /** A deployment that is deploying already was, or has just been published. */
  lemma StillDeploying(a: Action, s: State, d: int)
    requires Inv(s) && Enabled(a, s) && HasStatus(Apply(a, s).t, d, Deploying)
    ensures HasStatus(s.t, d, Deploying) || (a.Publish? && a.id == d)
  {
    if d in s.t.deployments {
      StatusMoves(a, s, d);
    }
  }

  /** A deployment that is deployed already was, or its worker has just finished. */
  lemma StillDeployed(a: Action, s: State, d: int)
    requires Inv(s) && Enabled(a, s) && HasStatus(Apply(a, s).t, d, Deployed)
    ensures if a.Finish? then s.workers[a.worker].deployment == d else HasStatus(s.t, d, Deployed)
  {
    if d in s.t.deployments {
      StatusMoves(a, s, d);
    }
  }

  /** At most one deployment is deploying and at most one deployed after every step. */
  lemma StepKeepsSingle(a: Action, s: State)
    requires Inv(s) && Enabled(a, s)
    ensures AtMostOne(Apply(a, s).t, Deploying) && AtMostOne(Apply(a, s).t, Deployed)
  {
    var t' := Apply(a, s).t;
    assert a.Publish? ==> forall d :: !HasStatus(s.t, d, Deploying);
    forall d, e | HasStatus(t', d, Deploying) && HasStatus(t', e, Deploying) ensures d == e {
      StillDeploying(a, s, d);
      StillDeploying(a, s, e);
    }
    forall d, e | HasStatus(t', d, Deployed) && HasStatus(t', e, Deployed) ensures d == e {
      StillDeployed(a, s, d);
      StillDeployed(a, s, e);
    }
  }

  lemma WorkerStaysDeploying(a: Action, s: State, w: int)
    requires Inv(s) && Enabled(a, s) && w in Apply(a, s).workers
    ensures HasStatus(Apply(a, s).t, Apply(a, s).workers[w].deployment, Deploying)
    ensures a.Publish? ==> s.workers == map[]
  {
    assert forall v :: v in s.workers ==> HasStatus(s.t, s.workers[v].deployment, Deploying);
    if w in s.workers {
      StatusMoves(a, s, s.workers[w].deployment);
    }
  }

  lemma DeployedWasMigrated(a: Action, s: State, d: int)
    requires Inv(s) && Enabled(a, s) && d in Apply(a, s).t.deployments
    requires Apply(a, s).t.deployments[d].status in {Deployed, Retired}
    ensures d in Apply(a, s).migrated
  {
    if d in s.t.deployments {
      StatusMoves(a, s, d);
    }
  }

  lemma MigratedGrows(a: Action, s: State)
    requires Inv(s) && Enabled(a, s)
    ensures s.migrated <= Apply(a, s).migrated
    ensures forall d :: d in Apply(a, s).migrated ==> d < Apply(a, s).t.nextDeployment
    ensures forall w :: InPhase(Apply(a, s), w, Finishing) ==> Apply(a, s).workers[w].deployment in Apply(a, s).migrated
  {
    if a.Migrate? {
      assert HasStatus(s.t, s.workers[a.worker].deployment, Deploying);
    }
  }

  lemma StepKeepsWorkers(a: Action, s: State)
    requires Inv(s) && Enabled(a, s)
    ensures WorkersFit(Apply(a, s))
  {
    var s' := Apply(a, s);
    MigratedGrows(a, s);
    forall w | w in s'.workers ensures HasStatus(s'.t, s'.workers[w].deployment, Deploying) {
      WorkerStaysDeploying(a, s, w);
    }
    forall v, w | v in s'.workers && w in s'.workers ensures v == w {
      WorkerStaysDeploying(a, s, v);
    }
    forall d | d in s'.t.deployments && s'.t.deployments[d].status in {Deployed, Retired}
      ensures d in s'.migrated
    {
      DeployedWasMigrated(a, s, d);
    }
  }

  lemma StepKeepsInv(a: Action, s: State)
    requires Inv(s) && Enabled(a, s)
    ensures Inv(Apply(a, s))
  {
    StepKeepsShape(a, s);
    StepKeepsSingle(a, s);
    StepKeepsWorkers(a, s);
  }

  // ---- Whole runs ----

  ghost predicate Legal(run: seq<Action>)
    decreases |run|, 0
  {
    run != [] ==>
      Legal(run[..|run| - 1]) && Enabled(run[|run| - 1], Outcome(run[..|run| - 1]))
  }

  ghost function Outcome(run: seq<Action>): State
    requires Legal(run)
    decreases |run|, 1
  {
    if run == [] then INIT else Apply(run[|run| - 1], Outcome(run[..|run| - 1]))
  }

  lemma {:induction false} InvHolds(run: seq<Action>)
    requires Legal(run)
    ensures Inv(Outcome(run))
  {
    if run == [] {
    } else {
      InvHolds(run[..|run| - 1]);
      StepKeepsInv(run[|run| - 1], Outcome(run[..|run| - 1]));
    }
  }

  /** In every reachable state at most one deployment is deploying, at most one is deployed, at
      most one suite is active, and the active suite is the deployed deployment's. */
  lemma TablesStayInStep(run: seq<Action>)
    requires Legal(run)
    ensures var t := Outcome(run).t;
            && AtMostOne(t, Deploying) && AtMostOne(t, Deployed)
            && (forall x, y :: x in ActiveSuites(t) && y in ActiveSuites(t) ==> x == y)
            && (forall x :: x in ActiveSuites(t) <==>
                  exists d :: HasStatus(t, d, Deployed) && Owns(t, d, x))
  {
    InvHolds(run);
    var t := Outcome(run).t;
    forall x ensures x in ActiveSuites(t) <==> exists d :: HasStatus(t, d, Deployed) && Owns(t, d, x) {
      if x in ActiveSuites(t) {
        var d :| Owns(t, d, x) && t.deployments[d].status == Deployed;
        assert HasStatus(t, d, Deployed);
      }
    }
  }

  /** A live worker always finds its deployment deploying and owning a suite, so reading the
      suite id is safe and the failure write only ever moves deploying to failed. */
  lemma WorkersAreSafe(run: seq<Action>, w: int)
    requires Legal(run) && w in Outcome(run).workers
    ensures var s := Outcome(run);
            && (forall v :: v in s.workers ==> v == w)
            && HasStatus(s.t, s.workers[w].deployment, Deploying)
            && s.t.deployments[s.workers[w].deployment].suite.Some?
            && s.t.deployments[s.workers[w].deployment].suite.value in s.t.suites
  {
    InvHolds(run);
  }

  /** Step `i` of the run is worker `w`, on deployment `d`, seeing its migrations end: every
      migratable config is usable and its own new job was first seen to succeed. */
  ghost predicate MigratedAt(run: seq<Action>, i: int, w: int, d: int) {
    && 0 <= i < |run| && Legal(run[..i]) && run[i].Migrate? && run[i].worker == w
    && w in Outcome(run[..i]).workers && Outcome(run[..i]).workers[w].deployment == d
    && var configs := Outcome(run[..i]).workers[w].configs;
       var jobs := Jobs.Wanted(configs, d);
       forall j :: 0 <= j < |configs| && configs[j].migratable ==>
         && Jobs.Usable(configs[j]) && jobs[j] !in run[i].names
         && Jobs.EndsWell(run[i].watch, jobs[j], run[i].ticks)
  }

  /** Step `l` of the run is the worker reading its configs: the rows its deployment's suite
      listed then. */
  ghost predicate LoadedAt(run: seq<Action>, l: int, w: int, worker: Worker) {
    && 0 <= l < |run| && Legal(run[..l]) && run[l].Load? && run[l].worker == w && run[l].actors.Some?
    && var t := Outcome(run[..l]).t;
       && SuiteOf(t, worker.deployment).Some?
       && InOrder(run[l].actors.value, t, SuiteOf(t, worker.deployment).value)
       && worker.configs == Rows(t, SuiteOf(t, worker.deployment).value, run[l].actors.value)
  }

  /** A deployment is deployed, or was, only if a worker read the configs of its suite and later
      saw the job of every migratable one of them succeed. */
  lemma DeployedOnlyAfterMigrating(run: seq<Action>, d: int)
    requires Legal(run) && d in Outcome(run).t.deployments
    requires Outcome(run).t.deployments[d].status in {Deployed, Retired}
    ensures exists l, i, w :: l < i && MigratedAt(run, i, w, d)
                              && LoadedAt(run, l, w, Outcome(run[..i]).workers[w])
  {
    InvHolds(run);
    MigratedWhen(run, d);
    var i, w :| MigratedAt(run, i, w, d) && InPhase(Outcome(run[..i]), w, Migrating);
    var worker := Outcome(run[..i]).workers[w];
    LoadedWhen(run[..i], w);
    var l :| LoadedAt(run[..i], l, w, worker);
    LoadedEarlier(run, i, l, w, worker);
  }

  lemma LoadedEarlier(run: seq<Action>, i: nat, l: int, w: int, worker: Worker)
    requires i <= |run| && LoadedAt(run[..i], l, w, worker)
    ensures l < i && LoadedAt(run, l, w, worker)
  {
    assert run[..i][..l] == run[..l] && run[..i][l] == run[l];
  }

  lemma {:induction false} MigratedWhen(run: seq<Action>, d: int)
    requires Legal(run) && d in Outcome(run).migrated
    ensures exists i, w :: MigratedAt(run, i, w, d) && InPhase(Outcome(run[..i]), w, Migrating)
  {
    if run == [] {
      assert false;
    } else {
      var n := |run| - 1;
      var before := run[..n];
      if d in Outcome(before).migrated {
        MigratedWhen(before, d);
        var i, w :| MigratedAt(before, i, w, d) && InPhase(Outcome(before[..i]), w, Migrating);
        assert before[..i] == run[..i] && before[i] == run[i];
        assert MigratedAt(run, i, w, d);
      } else {
        PassedIsSeen(Outcome(before), run[n]);
        assert MigratedAt(run, n, run[n].worker, d);
      }
    }
  }

  lemma PassedIsSeen(s: State, a: Action)
    requires Enabled(a, s) && a.Migrate? && !a.faulty && Passes(s.workers[a.worker], a.names, a.watch, a.ticks)
    ensures var w := s.workers[a.worker];
            var jobs := Jobs.Wanted(w.configs, w.deployment);
            forall j :: 0 <= j < |w.configs| && w.configs[j].migratable ==>
              && Jobs.Usable(w.configs[j]) && jobs[j] !in a.names && Jobs.EndsWell(a.watch, jobs[j], a.ticks)
  {
    var w := s.workers[a.worker];
    var jobs := Jobs.Wanted(w.configs, w.deployment);
    forall j | 0 <= j < |w.configs| && w.configs[j].migratable
      ensures Jobs.Usable(w.configs[j]) && jobs[j] !in a.names && Jobs.EndsWell(a.watch, jobs[j], a.ticks)
    {
      assert !Jobs.Blocks(w.configs, jobs, j, a.names, a.watch, a.ticks);
    }
  }

  lemma {:induction false} LoadedWhen(run: seq<Action>, w: int)
    requires Legal(run) && InPhase(Outcome(run), w, Migrating)
    ensures exists l :: LoadedAt(run, l, w, Outcome(run).workers[w])
  {
    if run == [] {
      assert false;
    } else {
      var n := |run| - 1;
      var before := run[..n];
      if run[n].Load? && run[n].worker == w {
        assert LoadedAt(run, n, w, Outcome(run).workers[w]);
      } else {
        assert Outcome(before).workers[w] == Outcome(run).workers[w];
        LoadedWhen(before, w);
        var l :| LoadedAt(before, l, w, Outcome(before).workers[w]);
        LoadedEarlier(run, n, l, w, Outcome(run).workers[w]);
      }
    }
  }

  lemma StepKeepsFinal(a: Action, s: State, d: int)
    requires Inv(s) && Enabled(a, s)
    requires d in s.t.deployments && s.t.deployments[d].status in {Rejected, Failed, Retired}
    ensures d in Apply(a, s).t.deployments && Apply(a, s).t.deployments[d] == s.t.deployments[d]
  {
  }

  /** Rejected, failed and retired deployments stay exactly as they are for ever. */
  lemma {:induction false} FinalStatusesStay(run: seq<Action>, cut: nat, d: int)
    requires Legal(run) && cut <= |run|
    ensures Legal(run[..cut])
    ensures var t := Outcome(run[..cut]).t;
            d in t.deployments && t.deployments[d].status in {Rejected, Failed, Retired} ==>
              d in Outcome(run).t.deployments && Outcome(run).t.deployments[d] == t.deployments[d]
    decreases |run|
  {
    if cut == |run| {
      assert run[..cut] == run;
    } else {
      var before := run[..|run| - 1];
      assert before[..cut] == run[..cut];
      FinalStatusesStay(before, cut, d);
      var t := Outcome(run[..cut]).t;
      if d in t.deployments && t.deployments[d].status in {Rejected, Failed, Retired} {
        InvHolds(before);
        StepKeepsFinal(run[|run| - 1], Outcome(before), d);
      }
    }
  }

  // ---- Served configs are frozen ----

  /** An actor can be served this config: its suite has been deployed. */
  ghost predicate Servable(t: Tables, c: int) {
    && c in t.configs && t.configs[c].suite.Some?
    && t.configs[c].suite.value in t.suites && t.suites[t.configs[c].suite.value].deployed
  }

  lemma StepKeepsServable(a: Action, s: State, c: int)
    requires Inv(s) && Enabled(a, s) && Servable(s.t, c)
    ensures Servable(Apply(a, s).t, c) && Apply(a, s).t.configs[c] == s.t.configs[c]
  {
  }

  /** Once a config can be served, it can be served for ever, with the same content and the
      same minimum version. */
  lemma {:induction false} ServedConfigsAreFrozen(run: seq<Action>, cut: nat, c: int)
    requires Legal(run) && cut <= |run|
    ensures Legal(run[..cut])
    ensures Servable(Outcome(run[..cut]).t, c) ==>
              Servable(Outcome(run).t, c) && Outcome(run).t.configs[c] == Outcome(run[..cut]).t.configs[c]
    decreases |run|
  {
    if cut == |run| {
      assert run[..cut] == run;
    } else {
      var before := run[..|run| - 1];
      assert before[..cut] == run[..cut];
      ServedConfigsAreFrozen(before, cut, c);
      InvHolds(before);
      if Servable(Outcome(before).t, c) {
        StepKeepsServable(run[|run| - 1], Outcome(before), c);
      }
    }
  }

  // ---- New drafts, and the deployment nobody finishes ----

  /** A new draft starts from what is deployed: every configurable actor listed in the deployed
      deployment's suite is listed in the draft's suite with the same content. */
  lemma NewDraftCopiesDeployed(
      run: seq<Action>, f: Fresh, name: string, reviewers: seq<string>, user: string, now: int, d: int, x: int, a: int)
    requires Legal(run)
    requires var t := Outcome(run).t;
             && IsFresh(t, f) && HasStatus(t, d, Deployed) && Owns(t, d, x)
             && a in Listing(t, x) && a in t.actors && t.actors[a].configurable
    ensures var t := Outcome(run).t;
            var t' := InsertedFrom(t, f, ActiveSuites(t), name, reviewers, user, now);
            && a in Listing(t', t.nextSuite)
            && t'.configs[Listing(t', t.nextSuite)[a]].content == t.configs[Listing(t, x)[a]].content
  {
    var t := Outcome(run).t;
    InvHolds(run);
    TablesStayInStep(run);
    assert ActiveSuites(t) == {x};
    NewSuiteListing(t, f, ActiveSuites(t), name, reviewers, user, now, a);
  }

  /** The row is deploying and no worker is left to finish it. */
  ghost predicate Abandoned(s: State, d: int) {
    HasStatus(s.t, d, Deploying) && s.workers == map[]
  }

  lemma StepKeepsAbandoned(a: Action, s: State, d: int)
    requires Inv(s) && Enabled(a, s) && Abandoned(s, d)
    ensures !a.Publish? && Abandoned(Apply(a, s), d)
  {
  }

  /** Once a deploying row has no worker, it stays so and nothing is ever published again. */
  lemma {:induction false} AbandonedDeployingBlocks(run: seq<Action>, cut: nat, d: int)
    requires Legal(run) && cut <= |run|
    ensures Legal(run[..cut])
    ensures Abandoned(Outcome(run[..cut]), d) ==>
              && Abandoned(Outcome(run), d)
              && (forall id :: Refusal(Outcome(run).t, id).Some?)
              && (forall i :: cut <= i < |run| ==> !run[i].Publish?)
    decreases |run|
  {
    if cut == |run| {
      assert run[..cut] == run;
    } else {
      var before := run[..|run| - 1];
      assert before[..cut] == run[..cut];
      AbandonedDeployingBlocks(before, cut, d);
      if Abandoned(Outcome(run[..cut]), d) {
        InvHolds(before);
        StepKeepsAbandoned(run[|run| - 1], Outcome(before), d);
        assert forall i :: cut <= i < |before| ==> run[i] == before[i];
      }
    }
  }

  // ---- How a row comes to be abandoned ----

  /** Only a vanishing worker abandons its row, and it always does. */
  lemma OnlyVanishAbandons(a: Action, s: State, d: int)
    requires Inv(s) && Enabled(a, s)
    ensures Abandoned(Apply(a, s), d) <==>
              Abandoned(s, d) || (a.Vanish? && s.workers[a.worker].deployment == d)
  {
    var s' := Apply(a, s);
    if Abandoned(s, d) {
      StepKeepsAbandoned(a, s, d);
    } else if a.Vanish? {
      assert forall v :: v in s.workers ==> v == a.worker;
      assert s'.workers == map[];
    } else if Abandoned(s', d) {
      StillDeploying(a, s, d);
      if a.Finish? || a.Report? {
        WorkerEnds(a, s, d);
      } else {
        WorkersStay(a, s);
      }
      assert false;
    }
  }

  lemma WorkersStay(a: Action, s: State)
    requires Enabled(a, s) && !a.Finish? && !a.Report? && !a.Vanish?
    ensures s.workers.Keys <= Apply(a, s).workers.Keys
    ensures a.Publish? ==> a.worker in Apply(a, s).workers
  {
  }

  /** When a worker finishes or reports, nothing is deploying any more. */
  lemma WorkerEnds(a: Action, s: State, d: int)
    requires Inv(s) && Enabled(a, s) && (a.Finish? || a.Report?)
    ensures !HasStatus(Apply(a, s).t, d, Deploying)
  {
    assert HasStatus(s.t, d, Deploying) ==> d == s.workers[a.worker].deployment;
  }

  ghost predicate VanishedAt(run: seq<Action>, i: int, d: int) {
    && 0 <= i < |run| && Legal(run[..i]) && run[i].Vanish?
    && run[i].worker in Outcome(run[..i]).workers && Outcome(run[..i]).workers[run[i].worker].deployment == d
  }

  /** Over every run the abandoned rows are exactly those whose worker vanished. */
  lemma {:induction false} AbandonedByVanishing(run: seq<Action>, d: int)
    requires Legal(run)
    ensures Abandoned(Outcome(run), d) <==> exists i :: VanishedAt(run, i, d)
  {
    if run == [] {
      assert !Abandoned(INIT, d);
    } else {
      var n := |run| - 1;
      var before := run[..n];
      AbandonedByVanishing(before, d);
      InvHolds(before);
      OnlyVanishAbandons(run[n], Outcome(before), d);
      forall i | i != n ensures VanishedAt(run, i, d) <==> VanishedAt(before, i, d) {
        if 0 <= i < n {
          assert before[..i] == run[..i] && before[i] == run[i];
        }
      }
      assert VanishedAt(run, n, d) <==> run[n].Vanish? && Outcome(before).workers[run[n].worker].deployment == d;
    }
  }

  lemma Extend(run: seq<Action>, a: Action)
    requires Legal(run) && Enabled(a, Outcome(run))
    ensures Legal(run + [a]) && Outcome(run + [a]) == Apply(a, Outcome(run))
  {
    var longer := run + [a];
    assert longer[..|longer| - 1] == run && longer[|longer| - 1] == a;
  }

  // ---- When publishing is blocked for good ----

  /** No continuation of the run publishes anything. */
  ghost predicate BlockedForGood(run: seq<Action>) {
    forall longer: seq<Action> :: Legal(longer) && run <= longer ==>
      forall i :: |run| <= i < |longer| ==> !longer[i].Publish?
  }

  lemma {:induction false} Numbering(lo: int, s: set<int>) returns (m: map<int, int>, hi: int)
    ensures lo <= hi
    ensures forall c :: c in m ==> lo <= c < hi && m[c] in s
    ensures forall a :: a in s ==> exists c :: c in m && m[c] == a
    ensures forall c, d :: c in m && d in m && m[c] == m[d] ==> c == d
    decreases |s|
  {
    if s == {} {
      m, hi := map[], lo;
    } else {
      assert exists a :: a in s by {
        if forall a :: a !in s { assert false; }
      }
      var x :| x in s;
      var m', hi' := Numbering(lo, s - {x});
      m, hi := m'[hi' := x], hi' + 1;
      forall a | a in s ensures exists c :: c in m && m[c] == a {
        if a == x {
          assert m[hi'] == x;
        } else {
          assert a in s - {x};
          var c :| c in m' && m'[c] == a;
          assert m[c] == a;
        }
      }
    }
  }

  lemma FreshExists(t: Tables) returns (f: Fresh)
    ensures IsFresh(t, f)
  {
    var actors := set a | a in t.actors && t.actors[a].configurable;
    var m, hi := Numbering(t.nextConfig, actors);
    f := Fresh(m, map c | c in m :: None, hi);
    forall a | a in t.actors && t.actors[a].configurable ensures exists c :: c in f.actorOf && f.actorOf[c] == a {
      assert a in actors;
    }
  }

  /** What a live worker does to give up. */
  function GivingUp(w: int, phase: Phase): seq<Action> {
    match phase
    case Loading => [Load(w, None)]
    case Migrating => [Migrate(w, {}, (t, j) => Jobs.Unreadable, 0, true)]
    case Finishing => [FailToFinish(w)]
    case Reporting => []
  }

  lemma WorkerGivesUp(run: seq<Action>, w: int) returns (longer: seq<Action>)
    requires Legal(run) && w in Outcome(run).workers
    ensures Legal(longer) && run <= longer
    ensures var s, s' := Outcome(run), Outcome(longer);
            && InPhase(s', w, Reporting) && s'.t == s.t && s'.workers.Keys == s.workers.Keys
            && s'.workers[w].deployment == s.workers[w].deployment
  {
    var more := GivingUp(w, Outcome(run).workers[w].phase);
    if more == [] {
      longer := run;
    } else {
      Extend(run, more[0]);
      longer := run + [more[0]];
    }
  }

  /** A live worker can fail at any point and report it, and then nothing is deploying. */
  lemma WorkerCanGiveUp(run: seq<Action>, w: int) returns (longer: seq<Action>)
    requires Legal(run) && w in Outcome(run).workers
    ensures Legal(longer) && run <= longer
    ensures Outcome(longer).workers == map[] && forall d :: !HasStatus(Outcome(longer).t, d, Deploying)
    ensures forall d, status :: HasStatus(Outcome(run).t, d, status) && status != Deploying ==>
              HasStatus(Outcome(longer).t, d, status)
  {
    InvHolds(run);
    var mid := WorkerGivesUp(run, w);
    var report := Report(w, "");
    InvHolds(mid);
    var s := Outcome(mid);
    Extend(mid, report);
    longer := mid + [report];
    forall d ensures !HasStatus(Apply(report, s).t, d, Deploying) {
      WorkerEnds(report, s, d);
    }
    assert forall v :: v in s.workers ==> v == w;
    assert Apply(report, s).workers == map[];
  }

  // ---- Which deployments can be published ----

  /** The deployment is a draft or in review. */
  ghost predicate Waits(t: Tables, d: int) {
    HasStatus(t, d, Draft) || HasStatus(t, d, Reviewing)
  }

  /** While nothing is deploying, a request to publish is accepted for every draft, for every
      deployment in review, and for nothing else. */
  lemma PublishableNow(run: seq<Action>, id: int, w: int)
    requires Legal(run) && forall d :: !HasStatus(Outcome(run).t, d, Deploying)
    ensures Enabled(Publish(id, w), Outcome(run)) <==> Waits(Outcome(run).t, id)
  {
    var s := Outcome(run);
    InvHolds(run);
    if v :| v in s.workers {
      assert false;
    }
    forall d | d in s.t.deployments ensures s.t.deployments[d].status != Deploying {
      assert !HasStatus(s.t, d, Deploying);
    }
  }

  /** Nothing is deploying, or the one deploying row still has its worker: then some
      continuation leaves nothing deploying and all other statuses as they are. */
  lemma CanBeFreed(run: seq<Action>) returns (longer: seq<Action>)
    requires Legal(run) && forall d :: !Abandoned(Outcome(run), d)
    ensures Legal(longer) && run <= longer
    ensures Outcome(longer).workers == map[] && forall d :: !HasStatus(Outcome(longer).t, d, Deploying)
    ensures forall d, status :: HasStatus(Outcome(run).t, d, status) && status != Deploying ==>
              HasStatus(Outcome(longer).t, d, status)
  {
    var s := Outcome(run);
    if s.workers.Keys != {} {
      assert exists w :: w in s.workers.Keys by {
        if forall w :: w !in s.workers.Keys { assert false; }
      }
      var w :| w in s.workers.Keys;
      longer := WorkerCanGiveUp(run, w);
    } else {
      assert s.workers == map[];
      forall d ensures !HasStatus(s.t, d, Deploying) {
        assert !Abandoned(s, d);
      }
      longer := run;
    }
  }

  /** Some continuation of the run ends by publishing the deployment. */
  ghost predicate PublishableLater(run: seq<Action>, id: int) {
    exists longer: seq<Action>, w :: Legal(longer) && run < longer && longer[|longer| - 1] == Publish(id, w)
  }

  /** Once published or rejected, a deployment is never a draft or in review again. */
  lemma {:induction false} NeverWaitsAgain(run: seq<Action>, cut: nat, d: int)
    requires Legal(run) && cut <= |run|
    ensures Legal(run[..cut])
    ensures d in Outcome(run[..cut]).t.deployments && !Waits(Outcome(run[..cut]).t, d) ==>
              d in Outcome(run).t.deployments && !Waits(Outcome(run).t, d)
    decreases |run|
  {
    if cut == |run| {
      assert run[..cut] == run;
    } else {
      var before := run[..|run| - 1];
      assert before[..cut] == run[..cut];
      NeverWaitsAgain(before, cut, d);
      InvHolds(before);
      if d in Outcome(before).t.deployments {
        StatusMoves(run[|run| - 1], Outcome(before), d);
      }
    }
  }

  /** A deployment of any reachable state can still be published exactly if it is a draft or in
      review and no row is abandoned. */
  lemma PublishableExactly(run: seq<Action>, id: int)
    requires Legal(run) && id in Outcome(run).t.deployments
    ensures PublishableLater(run, id) <==>
              Waits(Outcome(run).t, id) && forall d :: !Abandoned(Outcome(run), d)
  {
    if Waits(Outcome(run).t, id) && forall d :: !Abandoned(Outcome(run), d) {
      var mid := CanBeFreed(run);
      PublishableNow(mid, id, 0);
      Extend(mid, Publish(id, 0));
      var longer := mid + [Publish(id, 0)];
      assert run < longer && longer[|longer| - 1] == Publish(id, 0);
    } else {
      forall longer: seq<Action>, w | Legal(longer) && run < longer && longer[|longer| - 1] == Publish(id, w)
        ensures false
      {
        NotPublishedLater(run, longer, id);
      }
    }
  }

  lemma NotPublishedLater(run: seq<Action>, longer: seq<Action>, id: int)
    requires Legal(longer) && run < longer && Legal(run) && id in Outcome(run).t.deployments
    requires !Waits(Outcome(run).t, id) || exists d :: Abandoned(Outcome(run), d)
    ensures !(longer[|longer| - 1].Publish? && longer[|longer| - 1].id == id)
  {
    var before := longer[..|longer| - 1];
    assert before[..|run|] == run && longer[..|run|] == run;
    if d :| Abandoned(Outcome(run), d) {
      AbandonedDeployingBlocks(longer, |run|, d);
    } else {
      NeverWaitsAgain(before, |run|, id);
    }
  }

  lemma {:induction false} LongerThanAll(names: set<string>) returns (n: nat)
    ensures forall x :: x in names ==> |x| < n
    decreases |names|
  {
    if names == {} {
      n := 1;
    } else {
      assert exists x :: x in names by {
        if forall x :: x !in names { assert false; }
      }
      var x :| x in names;
      n := LongerThanAll(names - {x});
      n := if n <= |x| then |x| + 1 else n;
    }
  }

  lemma UnusedName(t: Tables) returns (name: string)
    ensures Accepted(t, name, "admin")
  {
    var names := set d | d in t.deployments :: t.deployments[d].name;
    var n := LongerThanAll(names);
    name := seq(n + 1, i => 'a');
    forall d | d in t.deployments ensures t.deployments[d].name != name {
      assert t.deployments[d].name in names;
    }
  }

  lemma CreateAndPublish(s: State, f: Fresh, name: string)
    requires Accepted(s.t, name, "admin")
    requires Inv(s) && IsFresh(s.t, f) && s.workers == map[] && forall d :: !HasStatus(s.t, d, Deploying)
    ensures var create, publish := Create(f, name, [], "admin", 0), Publish(s.t.nextDeployment, 0);
            && Enabled(create, s) && Enabled(publish, Apply(create, s))
            && var s' := Apply(publish, Apply(create, s));
               0 in s'.workers && s'.workers[0].deployment == s.t.nextDeployment
  {
    var s1 := Apply(Create(f, name, [], "admin", 0), s);
    assert HasStatus(s1.t, s.t.nextDeployment, Draft);
    forall d | d in s1.t.deployments ensures s1.t.deployments[d].status != Deploying {
      assert !HasStatus(s.t, d, Deploying);
    }
  }

  /** With nothing deploying, a new draft can be made and published. */
  lemma CanPublish(run: seq<Action>) returns (longer: seq<Action>)
    requires Legal(run) && Outcome(run).workers == map[]
    requires forall d :: !HasStatus(Outcome(run).t, d, Deploying)
    ensures Legal(longer) && run <= longer && |longer| == |run| + 2 && longer[|run| + 1].Publish?
    ensures 0 in Outcome(longer).workers
    ensures Outcome(longer).workers[0].deployment == Outcome(run).t.nextDeployment
  {
    InvHolds(run);
    var f := FreshExists(Outcome(run).t);
    var name := UnusedName(Outcome(run).t);
    var create, publish := Create(f, name, [], "admin", 0), Publish(Outcome(run).t.nextDeployment, 0);
    CreateAndPublish(Outcome(run), f, name);
    Extend(run, create);
    var mid := run + [create];
    Extend(mid, publish);
    longer := mid + [publish];
  }

  /** Publishing is blocked for good exactly when a deploying row has no worker, that is, when
      a worker has vanished from its row. */
  lemma BlockedExactlyWhenAbandoned(run: seq<Action>)
    requires Legal(run)
    ensures BlockedForGood(run) <==> exists d :: Abandoned(Outcome(run), d)
    ensures BlockedForGood(run) <==> exists i, d :: VanishedAt(run, i, d)
  {
    if d :| Abandoned(Outcome(run), d) {
      AbandonedIsBlocked(run, d);
      AbandonedByVanishing(run, d);
    } else {
      NotBlocked(run);
      forall i, d ensures !VanishedAt(run, i, d) {
        AbandonedByVanishing(run, d);
      }
    }
  }

  lemma AbandonedIsBlocked(run: seq<Action>, d: int)
    requires Legal(run) && Abandoned(Outcome(run), d)
    ensures BlockedForGood(run)
  {
    forall longer: seq<Action> | Legal(longer) && run <= longer
      ensures forall i :: |run| <= i < |longer| ==> !longer[i].Publish?
    {
      assert longer[..|run|] == run;
      AbandonedDeployingBlocks(longer, |run|, d);
    }
  }

  lemma NotBlocked(run: seq<Action>)
    requires Legal(run) && forall d :: !Abandoned(Outcome(run), d)
    ensures !BlockedForGood(run)
  {
    var mid := CanBeFreed(run);
    var longer := CanPublish(mid);
    assert run <= longer && longer[|mid| + 1].Publish?;
  }

  /** A reachable state in which publishing is blocked for good: the first draft ever is
      published and its worker vanishes at once. */
  lemma VanishBlocks() returns (run: seq<Action>)
    ensures Legal(run) && BlockedForGood(run) && Abandoned(Outcome(run), 1)
  {
    assert Legal([]) && Outcome([]) == INIT;
    forall d ensures !HasStatus(Outcome([]).t, d, Deploying) {
    }
    var before := CanPublish([]);
    InvHolds(before);
    OnlyVanishAbandons(Vanish(0), Outcome(before), 1);
    Extend(before, Vanish(0));
    run := before + [Vanish(0)];
    AbandonedIsBlocked(run, 1);
  }
}
