/** The gate a deployment passes before it is published: one Kubernetes job per migratable actor,
    watched every three seconds until each has been seen to end. */
module MigrationJobs {
  import opened Common
  import Tokenizer
  import Version

  datatype Migration = Migration(name: string, serial: int, image: string, command: seq<string>)

  function JobName(m: Migration): string {
    "migration-" + m.name + "-" + Version.FormatInt(m.serial)
  }

  /** What one reading of a job shows: nothing, when the call fails, or its pod counts. */
  datatype Sighting = Unreadable | Counts(succeeded: int, failed: int)

  predicate ShowsSuccess(s: Sighting) {
    s.Counts? && s.succeeded > 0
  }

  predicate ShowsFailure(s: Sighting) {
    s.Counts? && s.succeeded <= 0 && s.failed > 0
  }

  /** What the cluster shows about each job at each tick. */
  type Watch = (nat, string) -> Sighting

  datatype Verdict = Succeeded | CreationFailed | Cancelled | MigrationFailed(failed: set<string>)

  // ---- How a job ends ----

  ghost predicate OpenBefore(watch: Watch, job: string, tick: nat) {
    forall t: nat :: t < tick ==> !ShowsSuccess(watch(t, job)) && !ShowsFailure(watch(t, job))
  }

  /** The first telling sight of the job, within the ticks given, shows success. */
  ghost predicate EndsWell(watch: Watch, job: string, ticks: nat) {
    exists t: nat :: t < ticks && ShowsSuccess(watch(t, job)) && OpenBefore(watch, job, t)
  }

  ghost predicate EndsBadly(watch: Watch, job: string, ticks: nat) {
    exists t: nat :: t < ticks && ShowsFailure(watch(t, job)) && OpenBefore(watch, job, t)
  }

  ghost function Failing(watch: Watch, jobs: set<string>, ticks: nat): set<string> {
    set j | j in jobs && EndsBadly(watch, j, ticks)
  }

  /** The verdict on jobs that have been created, when the context ends after `ticks` ticks. */
  ghost function Judged(watch: Watch, jobs: set<string>, ticks: nat): Verdict {
    if exists j :: j in jobs && OpenBefore(watch, j, ticks) then Cancelled
    else if Failing(watch, jobs, ticks) != {} then MigrationFailed(Failing(watch, jobs, ticks))
    else Succeeded
  }

  lemma {:induction false} EndsOneWay(watch: Watch, job: string, ticks: nat)
    ensures !(EndsWell(watch, job, ticks) && EndsBadly(watch, job, ticks))
    ensures OpenBefore(watch, job, ticks) <==> !EndsWell(watch, job, ticks) && !EndsBadly(watch, job, ticks)
  {
    if EndsWell(watch, job, ticks) && EndsBadly(watch, job, ticks) {
      assert false;
    }
    if ticks == 0 || OpenBefore(watch, job, ticks) {
    } else {
      EndsOneWay(watch, job, ticks - 1);
      if OpenBefore(watch, job, ticks - 1) {
        assert ShowsSuccess(watch(ticks - 1, job)) || ShowsFailure(watch(ticks - 1, job));
      }
    }
  }

  // ---- Creating and watching ----

  class Jobs {
    var names: set<string>
    /** Failures that no existing job explains. */
    ghost var faults: nat
    /** What the jobs created here run. */
    ghost var runs: map<string, Migration>

    method Create(name: string, m: Migration) returns (ok: bool)
      modifies this
      ensures ok ==> && name !in old(names) && names == old(names) + {name}
                     && runs == old(runs)[name := m] && faults == old(faults)
      ensures !ok ==> && names == old(names) && runs == old(runs) && faults >= old(faults)
                      && (faults == old(faults) ==> name in names)
    {
      var fails: bool := *;
      if fails {
        faults := faults + 1;
        return false;
      }
      if name in names {
        return false;
      }
      names, runs := names + {name}, runs[name := m];
      return true;
    }
  }

  function JobNames(ms: seq<Migration>): (js: seq<string>)
    ensures |js| == |ms|
  {
    seq(|ms|, i requires 0 <= i < |ms| => JobName(ms[i]))
  }

  function Elements(js: seq<string>): set<string> {
    set j | j in js
  }

  /** Under each of the names there is a job for the migration of that place. */
  ghost predicate RunsAll(runs: map<string, Migration>, js: seq<string>, ms: seq<Migration>)
    requires |js| <= |ms|
  {
    forall i :: 0 <= i < |js| ==> js[i] in runs && runs[js[i]] == ms[i]
  }

  /** Every job name is new to the cluster and used once. */
  ghost predicate AllNew(names: set<string>, js: seq<string>) {
    && Elements(js) !! names
    && forall i, j :: 0 <= i < j < |js| ==> js[i] != js[j]
  }

  /** One round of readings takes out the jobs that show an end. */
  method ReadAll(watch: Watch, tick: nat, jobs: set<string>) returns (open: set<string>, failed: set<string>)
    ensures failed == set j | j in jobs && ShowsFailure(watch(tick, j))
    ensures open == set j | j in jobs && !ShowsFailure(watch(tick, j)) && !ShowsSuccess(watch(tick, j))
  {
    var unread := jobs;
    open, failed := jobs, {};
    while unread != {}
      invariant unread <= open <= jobs
      invariant forall j :: j in failed <==> j in jobs && j !in unread && ShowsFailure(watch(tick, j))
      invariant forall j :: j in open <==>
                  j in jobs && (j in unread || (!ShowsFailure(watch(tick, j)) && !ShowsSuccess(watch(tick, j))))
      decreases |unread|
    {
      var job :| job in unread;
      unread := unread - {job};
      var status := watch(tick, job);
      if status.Unreadable? {
        continue;
      }
      if status.succeeded > 0 {
        open := open - {job};
      } else if status.failed > 0 {
        failed := failed + {job};
        open := open - {job};
      }
    }
  }

  /** Creates a job per migration, stopping at the first that is refused. */
  method CreateJobs(c: Jobs, ms: seq<Migration>) returns (ok: bool, jobs: set<string>)
    modifies c
    ensures ok ==>
              && c.faults == old(c.faults) && AllNew(old(c.names), JobNames(ms))
              && jobs == Elements(JobNames(ms)) && c.names == old(c.names) + jobs
              && RunsAll(c.runs, JobNames(ms), ms)
    ensures !ok ==> c.faults > old(c.faults) || !AllNew(old(c.names), JobNames(ms))
    ensures exists n :: 0 <= n <= |ms| && c.names == old(c.names) + Elements(JobNames(ms)[..n])
  {
    ghost var js := JobNames(ms);
    jobs := {};
    for i := 0 to |ms|
      invariant jobs == Elements(js[..i]) && c.names == old(c.names) + jobs && c.faults == old(c.faults)
      invariant AllNew(old(c.names), js[..i]) && RunsAll(c.runs, js[..i], ms)
    {
      ghost var runs := c.runs;
      var name := JobName(ms[i]);
      assert name == js[i];
      ok := c.Create(name, ms[i]);
      if !ok {
        assert c.names == old(c.names) + Elements(js[..i]);
        if c.faults == old(c.faults) {
          RefusedMeans(old(c.names), js, i);
        }
        return false, jobs;
      }
      AnotherName(old(c.names), js, i);
      AnotherRuns(runs, js, ms, i);
      jobs := jobs + {name};
    }
    assert js[..|ms|] == js;
    return true, jobs;
  }

  /** Watches the jobs until none is open or the context ends. */
  method WatchJobs(watch: Watch, all: set<string>, ticks: nat) returns (r: Verdict)
    ensures r == Judged(watch, all, ticks)
  {
    var jobs := all;
    var failures: set<string> := {};
    var tick: nat := 0;
    while jobs != {}
      invariant tick <= ticks
      invariant forall j :: j in jobs <==> j in all && OpenBefore(watch, j, tick)
      invariant failures == Failing(watch, all, tick)
      decreases ticks - tick
    {
      if tick == ticks {
        assert exists j :: j in jobs by {
          if forall j :: j !in jobs { assert false; }
        }
        return Cancelled;
      }
      var open, failed := ReadAll(watch, tick, jobs);
      OneMoreTick(watch, all, tick);
      jobs, failures := open, failures + failed;
      tick := tick + 1;
    }
    forall j | j in all ensures !OpenBefore(watch, j, tick) {
      assert j !in jobs;
    }
    ClosedForGood(watch, all, tick, ticks);
    if failures != {} {
      return MigrationFailed(failures);
    }
    return Succeeded;
  }

  method RunMigrations(c: Jobs, ms: seq<Migration>, watch: Watch, ticks: nat) returns (r: Verdict)
    modifies c
    ensures r.CreationFailed? ==> c.faults > old(c.faults) || !AllNew(old(c.names), JobNames(ms))
    ensures !r.CreationFailed? ==>
              && c.faults == old(c.faults) && AllNew(old(c.names), JobNames(ms))
              && c.names == old(c.names) + Elements(JobNames(ms)) && RunsAll(c.runs, JobNames(ms), ms)
              && r == Judged(watch, Elements(JobNames(ms)), ticks)
    ensures exists n :: 0 <= n <= |ms| && c.names == old(c.names) + Elements(JobNames(ms)[..n])
  {
    var ok, jobs := CreateJobs(c, ms);
    if !ok {
      return CreationFailed;
    }
    r := WatchJobs(watch, jobs, ticks);
  }

  lemma RefusedMeans(names: set<string>, js: seq<string>, i: nat)
    requires i < |js| && js[i] in names + Elements(js[..i])
    ensures !AllNew(names, js)
  {
    assert js[i] in Elements(js);
  }

  lemma AnotherName(names: set<string>, js: seq<string>, i: nat)
    requires i < |js| && AllNew(names, js[..i]) && js[i] !in names + Elements(js[..i])
    ensures AllNew(names, js[..i + 1]) && Elements(js[..i + 1]) == Elements(js[..i]) + {js[i]}
  {
    assert js[..i + 1] == js[..i] + [js[i]];
  }

  lemma AnotherRuns(runs: map<string, Migration>, js: seq<string>, ms: seq<Migration>, i: nat)
    requires i < |js| <= |ms| && RunsAll(runs, js[..i], ms) && js[i] !in Elements(js[..i])
    ensures RunsAll(runs[js[i] := ms[i]], js[..i + 1], ms)
  {
    forall k | 0 <= k < i ensures js[k] != js[i] {
      assert js[..i][k] in Elements(js[..i]);
    }
  }

  lemma OneMoreTick(watch: Watch, all: set<string>, tick: nat)
    ensures forall j :: j in all ==>
              (OpenBefore(watch, j, tick + 1) <==>
               OpenBefore(watch, j, tick) && !ShowsFailure(watch(tick, j)) && !ShowsSuccess(watch(tick, j)))
    ensures Failing(watch, all, tick + 1)
         == Failing(watch, all, tick) + (set j | j in all && OpenBefore(watch, j, tick) && ShowsFailure(watch(tick, j)))
  {
    forall j | j in all
      ensures EndsBadly(watch, j, tick + 1)
              <==> EndsBadly(watch, j, tick) || (OpenBefore(watch, j, tick) && ShowsFailure(watch(tick, j)))
    {
    }
  }

  lemma ClosedForGood(watch: Watch, all: set<string>, tick: nat, ticks: nat)
    requires tick <= ticks && forall j :: j in all ==> !OpenBefore(watch, j, tick)
    ensures forall j :: j in all ==> !OpenBefore(watch, j, ticks)
    ensures Failing(watch, all, ticks) == Failing(watch, all, tick)
  {
    forall j | j in all ensures EndsBadly(watch, j, ticks) <==> EndsBadly(watch, j, tick) {
      EndsOneWay(watch, j, tick);
      EndsOneWay(watch, j, ticks);
    }
  }

  // ---- Properties ----

  /** No error is returned exactly when every job was seen to succeed before anything else was
      seen of it; and the failures named are exactly the jobs first seen to fail. */
  lemma NoErrorMeansAllSucceeded(watch: Watch, jobs: set<string>, ticks: nat)
    ensures Judged(watch, jobs, ticks) == Succeeded <==> forall j :: j in jobs ==> EndsWell(watch, j, ticks)
    ensures Judged(watch, jobs, ticks).MigrationFailed? ==>
              forall j :: j in jobs ==>
                if j in Judged(watch, jobs, ticks).failed then EndsBadly(watch, j, ticks) else EndsWell(watch, j, ticks)
  {
    forall j | j in jobs
      ensures EndsWell(watch, j, ticks) <==> !OpenBefore(watch, j, ticks) && j !in Failing(watch, jobs, ticks)
    {
      EndsOneWay(watch, j, ticks);
    }
    if Failing(watch, jobs, ticks) != {} {
      assert exists j :: j in Failing(watch, jobs, ticks) by {
        if forall j :: j !in Failing(watch, jobs, ticks) { assert false; }
      }
    }
  }

  /** Once there is a verdict other than a timeout, more time does not change it. */
  lemma TimeOnlyDecides(watch: Watch, jobs: set<string>, ticks: nat, later: nat)
    requires ticks <= later && Judged(watch, jobs, ticks) != Cancelled
    ensures Judged(watch, jobs, later) == Judged(watch, jobs, ticks)
  {
    ClosedForGood(watch, jobs, ticks, later);
  }

  /** Once the first telling sight of a job is a failed pod, it is failed for good, whatever a
      retry of it shows later. */
  lemma RetriesComeTooLate(
      watch: Watch, retried: Watch, jobs: set<string>, job: string, seen: nat, ticks: nat)
    requires job in jobs && EndsBadly(watch, job, seen) && seen <= ticks
    requires forall t: nat :: t < seen ==> retried(t, job) == watch(t, job)
    ensures Judged(retried, jobs, ticks) != Succeeded
    ensures Judged(retried, jobs, ticks).MigrationFailed? ==> job in Judged(retried, jobs, ticks).failed
  {
    var t: nat :| t < seen && ShowsFailure(watch(t, job)) && OpenBefore(watch, job, t);
    assert ShowsFailure(retried(t, job)) && OpenBefore(retried, job, t);
    assert EndsBadly(retried, job, ticks);
    assert job in Failing(retried, jobs, ticks);
  }

  lemma NumeralsDiffer(p: string, d: string, q: string, e: string)
    requires Version.AllDigits(d) && Version.AllDigits(e) && p + "-" + d == q + "-" + e
    ensures p == q && d == e
  {
    var s := p + "-" + d;
    assert s[|p|] == '-' && s[|q|] == '-';
    if |d| == |e| {
      assert p == s[..|p|] && q == s[..|q|];
      assert d == s[|p| + 1..] && e == s[|q| + 1..];
    } else {
      assert false;
    }
  }

  /** Deployment ids are never negative, so two migrations share a job only if they are for the
      same actor and the same deployment. */
  lemma JobNamesDiffer(m: Migration, n: Migration)
    requires m.serial >= 0 && n.serial >= 0
    ensures JobName(m) == JobName(n) <==> m.name == n.name && m.serial == n.serial
  {
    Version.NaturalDenotes(m.serial);
    Version.NaturalDenotes(n.serial);
    if JobName(m) == JobName(n) {
      var p, d := "migration-" + m.name, Version.Natural(m.serial);
      var q, e := "migration-" + n.name, Version.Natural(n.serial);
      NumeralsDiffer(p, d, q, e);
      assert m.name == p[10..] && n.name == q[10..];
    }
  }

  // ---- The configs of a deployment ----

  datatype Config = Config(actor: string, migratable: bool, content: Option<map<string, string>>)

  function Field(content: map<string, string>, key: string): string {
    if key in content then content[key] else ""
  }

  const IMAGE_KEY := "KUBE_MIGRATE_DOCKER_IMAGE"
  const COMMAND_KEY := "KUBE_MIGRATE_COMMAND"

  /** The content can be read, names an image, and its command has balanced quotes. */
  ghost predicate Usable(c: Config) {
    && c.content.Some? && Field(c.content.value, IMAGE_KEY) != ""
    && Tokenizer.UnescapedQuotes(Field(c.content.value, COMMAND_KEY)) % 2 == 0
  }

  /** The migration runs the config's image and its tokenized command for this deployment. */
  ghost predicate Performs(m: Migration, c: Config, deployment: int) {
    && c.content.Some? && m.name == "maos-" + c.actor && m.serial == deployment
    && m.image == Field(c.content.value, IMAGE_KEY)
    && Tokenizer.Tokens(Field(c.content.value, COMMAND_KEY)) == Ok(m.command)
  }

  ghost predicate PerformAll(ms: seq<Migration>, configs: seq<Config>, origin: seq<nat>, deployment: int) {
    && |ms| == |origin|
    && forall k :: 0 <= k < |ms| ==> origin[k] < |configs| && Performs(ms[k], configs[origin[k]], deployment)
  }

  /** The job each config would have. */
  function Wanted(configs: seq<Config>, deployment: int): (js: seq<string>)
    ensures |js| == |configs|
  {
    seq(|configs|, i requires 0 <= i < |configs| =>
      JobName(Migration("maos-" + configs[i].actor, deployment, "", [])))
  }

  /** Why a config keeps its deployment from being published: it is unusable, its job exists
      already, an earlier config has the same job, or the job was not seen to succeed. */
  ghost predicate Blocks(
    configs: seq<Config>, wanted: seq<string>, i: nat, names: set<string>, watch: Watch, ticks: nat)
    requires i < |configs| == |wanted|
  {
    && configs[i].migratable
    && (|| !Usable(configs[i]) || wanted[i] in names || !EndsWell(watch, wanted[i], ticks)
        || exists j :: 0 <= j < i && configs[j].migratable && wanted[j] == wanted[i])
  }

  /** The jobs of the usable configs so far, and the configs they come from. */
  ghost predicate Prepared(configs: seq<Config>, wanted: seq<string>, js: seq<string>, origin: seq<nat>) {
    && |js| == |origin| && |wanted| == |configs|
    && (forall k :: 0 <= k < |js| ==>
          origin[k] < |configs| && configs[origin[k]].migratable && js[k] == wanted[origin[k]])
    && (forall k, l :: 0 <= k < l < |js| ==> origin[k] < origin[l])
  }

  lemma PreparedOneMore(configs: seq<Config>, wanted: seq<string>, js: seq<string>, origin: seq<nat>, i: nat)
    requires Prepared(configs, wanted, js, origin) && i < |configs| && configs[i].migratable
    requires forall k :: 0 <= k < |js| ==> origin[k] < i
    ensures Prepared(configs, wanted, js + [wanted[i]], origin + [i])
  {
  }

  lemma NotAllNewBlocks(
      configs: seq<Config>, wanted: seq<string>, js: seq<string>, origin: seq<nat>,
      names: set<string>, watch: Watch, ticks: nat)
    requires Prepared(configs, wanted, js, origin)
    requires !AllNew(names, js) || !forall j :: j in Elements(js) ==> EndsWell(watch, j, ticks)
    ensures exists i :: 0 <= i < |configs| && Blocks(configs, wanted, i, names, watch, ticks)
  {
    if k :| 0 <= k < |js| && (js[k] in names || !EndsWell(watch, js[k], ticks)) {
      assert Blocks(configs, wanted, origin[k], names, watch, ticks);
    } else {
      var k, l :| 0 <= k < l < |js| && js[k] == js[l];
      assert origin[k] < origin[l];
      assert Blocks(configs, wanted, origin[l], names, watch, ticks);
    }
  }

  lemma AllNewNeverBlocks(
      configs: seq<Config>, wanted: seq<string>, js: seq<string>, origin: seq<nat>,
      names: set<string>, watch: Watch, ticks: nat, i: nat)
    requires Prepared(configs, wanted, js, origin) && AllNew(names, js)
    requires forall i :: 0 <= i < |configs| && configs[i].migratable ==> i in origin && Usable(configs[i])
    requires forall j :: j in Elements(js) ==> EndsWell(watch, j, ticks)
    requires i < |configs|
    ensures !Blocks(configs, wanted, i, names, watch, ticks)
    ensures configs[i].migratable ==> wanted[i] in Elements(js)
  {
    if configs[i].migratable {
      var k :| 0 <= k < |origin| && origin[k] == i;
      assert js[k] in Elements(js);
      forall j | 0 <= j < i && configs[j].migratable ensures wanted[j] != js[k] {
        var l :| 0 <= l < |origin| && origin[l] == j;
        assert js[l] != js[k];
      }
    }
  }

  /** The migration of one config, if the config is usable. */
  method MigrationOf(config: Config, deployment: int) returns (r: Option<Migration>)
    ensures r.Some? <==> Usable(config)
    ensures r.Some? ==> Performs(r.value, config, deployment)
  {
    if config.content.None? {
      return None;
    }
    var content := config.content.value;
    if Field(content, IMAGE_KEY) == "" {
      return None;
    }
    var command := Tokenizer.TokenizeCommand(Field(content, COMMAND_KEY));
    Tokenizer.FailsExactlyOnOddQuotes(Field(content, COMMAND_KEY));
    if command.Err? {
      return None;
    }
    return Some(Migration("maos-" + config.actor, deployment, Field(content, IMAGE_KEY), command.value));
  }

  /** One migration per migratable config, in order; the first unusable one ends the loop. */
  method PrepareMigrations(configs: seq<Config>, deployment: int)
    returns (r: Option<seq<Migration>>, ghost origin: seq<nat>)
    ensures r.None? <==> exists i :: 0 <= i < |configs| && configs[i].migratable && !Usable(configs[i])
    ensures r.Some? ==>
              && Prepared(configs, Wanted(configs, deployment), JobNames(r.value), origin)
              && PerformAll(r.value, configs, origin, deployment)
              && forall i :: 0 <= i < |configs| && configs[i].migratable ==> i in origin
  {
    ghost var wanted := Wanted(configs, deployment);
    ghost var js: seq<string> := [];
    var ms: seq<Migration> := [];
    origin := [];
    for i := 0 to |configs|
      invariant js == JobNames(ms) && PerformAll(ms, configs, origin, deployment)
      invariant Prepared(configs, wanted, js, origin) && forall k :: 0 <= k < |js| ==> origin[k] < i
      invariant forall j :: 0 <= j < i && configs[j].migratable ==> Usable(configs[j]) && j in origin
    {
      if !configs[i].migratable {
        continue;
      }
      var m := MigrationOf(configs[i], deployment);
      if m.None? {
        return None, [];
      }
      PreparedOneMore(configs, wanted, js, origin, i);
      assert JobName(m.value) == wanted[i];
      ms, js, origin := ms + [m.value], js + [wanted[i]], origin + [i];
      assert origin[|origin| - 1] == i;
    }
    return Some(ms), origin;
  }

  /** Runs a job for every migratable actor. Without failures of the cluster itself it returns
      no error exactly when no config stands in the way. */
  method RunDeploymentMigrations(c: Jobs, configs: seq<Config>, deployment: int, watch: Watch, ticks: nat)
    returns (ok: bool)
    modifies c
    ensures ok ==>
              && c.faults == old(c.faults)
              && forall i :: 0 <= i < |configs| ==>
                   && !Blocks(configs, Wanted(configs, deployment), i, old(c.names), watch, ticks)
                   && (configs[i].migratable ==>
                         var job := Wanted(configs, deployment)[i];
                         job in c.names && job in c.runs && Performs(c.runs[job], configs[i], deployment))
    ensures !ok && c.faults == old(c.faults) ==>
              exists i :: 0 <= i < |configs|
                          && Blocks(configs, Wanted(configs, deployment), i, old(c.names), watch, ticks)
    ensures (exists i :: 0 <= i < |configs| && configs[i].migratable && !Usable(configs[i])) ==>
              !ok && c.names == old(c.names)
  {
    var ms, origin := PrepareMigrations(configs, deployment);
    ghost var wanted := Wanted(configs, deployment);
    if ms.None? {
      ghost var i :| 0 <= i < |configs| && configs[i].migratable && !Usable(configs[i]);
      assert Blocks(configs, wanted, i, c.names, watch, ticks);
      return false;
    }
    var verdict := RunMigrations(c, ms.value, watch, ticks);
    ghost var js := JobNames(ms.value);
    NoErrorMeansAllSucceeded(watch, Elements(js), ticks);
    if verdict.Succeeded? {
      forall i | 0 <= i < |configs|
        ensures !Blocks(configs, wanted, i, old(c.names), watch, ticks)
        ensures configs[i].migratable ==>
                  wanted[i] in c.names && wanted[i] in c.runs && Performs(c.runs[wanted[i]], configs[i], deployment)
      {
        AllNewNeverBlocks(configs, wanted, js, origin, old(c.names), watch, ticks, i);
        if configs[i].migratable {
          var k :| 0 <= k < |origin| && origin[k] == i;
          assert js[k] == wanted[i];
        }
      }
    } else if c.faults == old(c.faults) {
      NotAllNewBlocks(configs, wanted, js, origin, old(c.names), watch, ticks);
    }
    return verdict.Succeeded?;
  }
}
