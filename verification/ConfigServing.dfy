/** Which config an actor is served: the newest compatible one of an active suite, else of a
    retired one. */
module ConfigServing {
  import opened Common
  import opened DeploymentTables
  import Publishing
  import Version

  /** Array order: the first differing element decides, and a proper prefix comes first. */
  predicate Leq(a: seq<int>, b: seq<int>) {
    a == [] || (b != [] && (a[0] < b[0] || (a[0] == b[0] && Leq(a[1..], b[1..]))))
  }

  /** `min IS NULL OR version >= min`; comparing with a NULL version is not true. */
  predicate Compatible(version: Option<seq<int>>, min: Option<seq<int>>) {
    min.None? || (version.Some? && Leq(min.value, version.value))
  }

  /** The rows of one of the two queries: active suites, or retired ones. */
  function Tier(t: Tables, actor: int, version: Option<seq<int>>, active: bool): set<int> {
    set c | c in t.configs
            && t.configs[c].actor == actor && actor in t.actors
            && t.configs[c].suite.Some? && t.configs[c].suite.value in t.suites
            && t.suites[t.configs[c].suite.value] == Suite(active, true)
            && Compatible(version, t.configs[c].minVersion)
  }

  ghost predicate IsGreatest(c: int, s: set<int>) {
    c in s && forall d :: d in s ==> d <= c
  }

  lemma GreatestExists(s: set<int>)
    requires s != {}
    ensures exists c :: IsGreatest(c, s)
  {
    var order := (c, d) => d <= c;
    FirstExists(s, order);
    var c :| Leads(c, s, order);
    assert IsGreatest(c, s);
  }

  /** ORDER BY id DESC LIMIT 1. */
  ghost function FirstRow(s: set<int>): Option<int> {
    if s == {} then None
    else
      GreatestExists(s);
      var c :| IsGreatest(c, s);
      Some(c)
  }

  datatype Answer = Unauthorized | BadVersion | Served(config: int) | NoConfig | QueryFailed

  /** A query that may fail with something other than "no rows". */
  datatype Faults = Faults(active: bool, retired: bool)

  ghost function GetActorConfig(t: Tables, token: Option<int>, header: Option<string>, faults: Faults): Answer {
    var version := Version.Deserialize(header);
    if token.None? then Unauthorized
    else if version.None? && header.Some? then BadVersion
    else if faults.active then QueryFailed
    else
      var active := FirstRow(Tier(t, token.value, version, true));
      if active.Some? then Served(active.value)
      else if faults.retired then QueryFailed
      else
        var retired := FirstRow(Tier(t, token.value, version, false));
        if retired.Some? then Served(retired.value) else NoConfig
  }

  const NO_FAULTS := Faults(false, false)

  /** Without a database fault the answer is the specification: the greatest compatible id of
      an active suite, else of a retired one, else nothing. */
  lemma ServesTheBest(t: Tables, actor: int, header: Option<string>, c: int)
    requires header.Some? ==> Version.Deserialize(header).Some?
    ensures var v := Version.Deserialize(header);
            var a := GetActorConfig(t, Some(actor), header, NO_FAULTS);
            && (a == Served(c) <==>
                  if Tier(t, actor, v, true) != {} then IsGreatest(c, Tier(t, actor, v, true))
                  else IsGreatest(c, Tier(t, actor, v, false)))
            && (a == NoConfig <==> Tier(t, actor, v, true) + Tier(t, actor, v, false) == {})
            && (a.Served? || a == NoConfig)
  {
    var v := Version.Deserialize(header);
    forall active | Tier(t, actor, v, active) != {}
      ensures exists d :: IsGreatest(d, Tier(t, actor, v, active))
    {
      GreatestExists(Tier(t, actor, v, active));
    }
  }

  /** A database fault is reported, unless the answer was settled before reaching it. */
  lemma FaultsAreReported(t: Tables, actor: int, header: Option<string>, faults: Faults)
    ensures var a := GetActorConfig(t, Some(actor), header, faults);
            var clean := GetActorConfig(t, Some(actor), header, NO_FAULTS);
            && (a == clean || a == QueryFailed)
            && (a == QueryFailed <==>
                  clean != BadVersion
                  && (faults.active || (faults.retired && Tier(t, actor, Version.Deserialize(header), true) == {})))
  {
    if Tier(t, actor, Version.Deserialize(header), true) != {} {
      GreatestExists(Tier(t, actor, Version.Deserialize(header), true));
    }
  }

  /** The text is three or four signed decimal numerals of 32-bit numbers joined by dots. */
  ghost predicate Spells(s: string, version: seq<Version.int32>) {
    var parts := Version.Split(s);
    && 3 <= |version| <= 4 && |parts| == |version|
    && forall i :: 0 <= i < |version| ==> Version.DenotesSigned(parts[i], version[i])
  }

  /** Which requests are turned away, whatever the tables hold: those without a token, and those
      with a version header that spells no version. */
  lemma TurnedAway(t: Tables, token: Option<int>, header: Option<string>, faults: Faults)
    ensures var a := GetActorConfig(t, token, header, faults);
            && (a == Unauthorized <==> token.None?)
            && (a == BadVersion <==>
                  token.Some? && header.Some? && forall v: seq<Version.int32> :: !Spells(header.value, v))
  {
    if header.Some? {
      forall v: seq<Version.int32> ensures Version.Deserialize(header) == Some(v) <==> Spells(header.value, v) {
        Version.AcceptsExactly(header.value, v);
      }
    }
  }

  // ---- The version order ----

  lemma {:induction false} LeqTransitive(a: seq<int>, b: seq<int>, c: seq<int>)
    requires Leq(a, b) && Leq(b, c)
    ensures Leq(a, c)
  {
    if a == [] || a[0] < b[0] || b[0] < c[0] {
    } else {
      LeqTransitive(a[1..], b[1..], c[1..]);
    }
  }

  lemma {:induction false} LeqTotal(a: seq<int>, b: seq<int>)
    ensures Leq(a, b) || Leq(b, a)
    ensures Leq(a, b) && Leq(b, a) ==> a == b
  {
    if a == [] || b == [] || a[0] != b[0] {
    } else {
      LeqTotal(a[1..], b[1..]);
      assert a == [a[0]] + a[1..] && b == [b[0]] + b[1..];
    }
  }

  /** The order in words: at the first position where the lists differ, or one ends. */
  lemma {:induction false} LeqAtFirstDifference(a: seq<int>, b: seq<int>, i: nat)
    requires i <= |a| && i <= |b| && a[..i] == b[..i]
    requires i < |a| && i < |b| ==> a[i] != b[i]
    ensures Leq(a, b) <==> i == |a| || (i < |b| && a[i] < b[i])
    decreases i
  {
    if i == 0 {
    } else {
      assert a[0] == a[..i][0] && b[0] == b[..i][0];
      assert a[1..][..i - 1] == a[..i][1..] && b[1..][..i - 1] == b[..i][1..];
      LeqAtFirstDifference(a[1..], b[1..], i - 1);
    }
  }

  /** The same caller with a higher version, or with a version at all. */
  ghost predicate Newer(was: Option<seq<int>>, now: Option<seq<int>>) {
    was.Some? ==> now.Some? && Leq(was.value, now.value)
  }

  lemma TierGrows(t: Tables, actor: int, was: Option<seq<int>>, now: Option<seq<int>>, active: bool)
    requires Newer(was, now)
    ensures Tier(t, actor, was, active) <= Tier(t, actor, now, active)
  {
    forall c | c in Tier(t, actor, was, active) ensures c in Tier(t, actor, now, active) {
      var min := t.configs[c].minVersion;
      if min.Some? {
        LeqTransitive(min.value, was.value, now.value);
      }
    }
  }

  /** Upgrading never loses an answer: an active config stays an active one, and within a tier
      the id never goes down. */
  lemma UpgradingIsMonotone(t: Tables, actor: int, was: Option<string>, now: Option<string>, c: int)
    requires was.Some? ==> Version.Deserialize(was).Some?
    requires now.Some? ==> Version.Deserialize(now).Some?
    requires Newer(Version.Deserialize(was), Version.Deserialize(now))
    requires GetActorConfig(t, Some(actor), was, NO_FAULTS) == Served(c)
    ensures var v, v' := Version.Deserialize(was), Version.Deserialize(now);
            var a := GetActorConfig(t, Some(actor), now, NO_FAULTS);
            && a.Served?
            && (c in Tier(t, actor, v, true) ==> a.config in Tier(t, actor, v', true) && c <= a.config)
            && (a.config in Tier(t, actor, v', false) ==> c in Tier(t, actor, v, false) && c <= a.config)
  {
    var v, v' := Version.Deserialize(was), Version.Deserialize(now);
    TierGrows(t, actor, v, v', true);
    TierGrows(t, actor, v, v', false);
    ServesTheBest(t, actor, was, c);
    var a := GetActorConfig(t, Some(actor), now, NO_FAULTS);
    ServesTheBest(t, actor, now, if a.Served? then a.config else c);
  }

  /** A caller without a version matches only configs without a minimum. */
  lemma NoVersionMatchesNoMinimum(t: Tables, actor: int, c: int)
    requires GetActorConfig(t, Some(actor), None, NO_FAULTS) == Served(c)
    ensures c in t.configs && t.configs[c].minVersion.None?
  {
    ServesTheBest(t, actor, None, c);
  }

  // ---- Serving over a whole run ----

  /** A served config belongs to a deployment that is or was deployed, keeps its content for
      ever, and comes from the deployed deployment's suite whenever that has a compatible one. */
  lemma ServedOverRuns(run: seq<Publishing.Action>, cut: nat, actor: int, header: Option<string>, c: int)
    requires Publishing.Legal(run) && cut <= |run|
    requires header.Some? ==> Version.Deserialize(header).Some?
    ensures Publishing.Legal(run[..cut])
    ensures var t, t' := Publishing.Outcome(run[..cut]).t, Publishing.Outcome(run).t;
            GetActorConfig(t, Some(actor), header, NO_FAULTS) == Served(c) ==>
              && c in t'.configs && t'.configs[c] == t.configs[c]
              && (exists d :: Publishing.Owns(t, d, t.configs[c].suite.value)
                              && t.deployments[d].status in {Deployed, Retired})
              && (c in Tier(t, actor, Version.Deserialize(header), true) ==>
                    exists d :: Publishing.Owns(t, d, t.configs[c].suite.value) && HasStatus(t, d, Deployed))
  {
    Publishing.ServedConfigsAreFrozen(run, cut, c);
    var t := Publishing.Outcome(run[..cut]).t;
    if GetActorConfig(t, Some(actor), header, NO_FAULTS) == Served(c) {
      ServesTheBest(t, actor, header, c);
      Publishing.InvHolds(run[..cut]);
      var x := t.configs[c].suite.value;
      var d :| Publishing.Owns(t, d, x) && t.deployments[d].status in {Deployed, Retired};
      assert c in Tier(t, actor, Version.Deserialize(header), true) ==> HasStatus(t, d, Deployed);
    }
  }
}
