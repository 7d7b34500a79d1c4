/** The schema migrator: which versions it picks, in which order it runs them, and what the
    `_migration` ledger says afterwards. */
module Migrator {
  import opened Common

  datatype Direction = Up | Down

  datatype Migration = Migration(version: int, sqlUp: string, sqlDown: string)

  datatype Opts = Opts(dryRun: bool, maxSteps: int, targetVersion: int)

  const DEFAULTS := Opts(false, 0, 0)

  datatype Error =
    | ReadFailed
    | NoSuchVersion(version: int)
    | NotInTargetList(version: int)
    | ExecFailed(version: int)
    | LedgerWriteFailed

  /** Go's three ways out of `Migrate`; `Panicked` is the nil dereference of line 199. */
  datatype Outcome = Applied(versions: seq<int>) | Failed(error: Error) | Panicked

  // ---- Validation of the migration set ----

  datatype Invalid = MissingDown | MissingUp | MissingVersion | Duplicate | NotAscending | Skipped

  /** Position `i` holds version `i + 1` with both directions present. */
  ghost predicate WellNumbered(versions: seq<Migration>) {
    forall i :: 0 <= i < |versions| ==>
      versions[i].version == i + 1 && versions[i].sqlDown != "" && versions[i].sqlUp != ""
  }

  method ValidateAndInit(versions: seq<Migration>) returns (r: Result<map<int, Migration>, Invalid>)
    ensures r.Ok? <==> WellNumbered(versions)
    ensures r.Ok? ==> r.value.Keys == Versions(|versions|)
    ensures r.Ok? ==> forall v :: 1 <= v <= |versions| ==> r.value[v] == versions[v - 1]
  {
    var lastVersion := 0;
    var migrations: map<int, Migration> := map[];
    for i := 0 to |versions|
      invariant lastVersion == i
      invariant WellNumbered(versions[..i])
      invariant migrations.Keys == Versions(i)
      invariant forall v :: 1 <= v <= i ==> migrations[v] == versions[v - 1]
    {
      var bundle := versions[i];
      if bundle.sqlDown == "" {
        return Err(MissingDown);
      }
      if bundle.sqlUp == "" {
        return Err(MissingUp);
      }
      if bundle.version == 0 {
        return Err(MissingVersion);
      }
      if bundle.version in migrations {
        return Err(Duplicate);
      }
      if bundle.version <= lastVersion {
        return Err(NotAscending);
      }
      if bundle.version > lastVersion + 1 {
        return Err(Skipped);
      }
      lastVersion := bundle.version;
      migrations := migrations[bundle.version := bundle];
    }
    assert versions[..|versions|] == versions;
    return Ok(migrations);
  }

  // ---- Version sets and their sorted lists ----

  /** The versions 1 to `n`. */
  function Versions(n: nat): set<int> {
    Interval(1, n)
  }

  predicate NotAfter(dir: Direction, v: int, x: int) {
    if dir.Up? then v <= x else x <= v
  }

  /** `v` comes before every other element of `s` in the direction's order. */
  predicate IsFirst(dir: Direction, v: int, s: set<int>) {
    v in s && forall x :: x in s ==> NotAfter(dir, v, x)
  }

  lemma FirstVersionExists(dir: Direction, s: set<int>)
    requires s != {}
    ensures exists v :: IsFirst(dir, v, s)
  {
    var order := (v, x) => NotAfter(dir, v, x);
    FirstExists(s, order);
    var v :| Leads(v, s, order);
    assert IsFirst(dir, v, s);
  }

  /** `slices.SortFunc` with the direction's comparison: ascending for up, descending for down. */
  ghost function Sorted(dir: Direction, s: set<int>): seq<int>
    decreases |s|
  {
    if s == {} then []
    else
      FirstVersionExists(dir, s);
      var v :| IsFirst(dir, v, s);
      [v] + Sorted(dir, s - {v})
  }

  lemma SortedUnfold(dir: Direction, s: set<int>, v: int)
    requires IsFirst(dir, v, s)
    ensures Sorted(dir, s) == [v] + Sorted(dir, s - {v})
  {
    FirstVersionExists(dir, s);
    var w :| IsFirst(dir, w, s) && Sorted(dir, s) == [w] + Sorted(dir, s - {w});
    assert NotAfter(dir, v, w) && NotAfter(dir, w, v);
  }

  /** The consecutive versions from `from` to `to`, in the direction's order. */
  function Range(dir: Direction, from: int, to: int): seq<int> {
    if dir.Up? then seq(if from <= to then to - from + 1 else 0, i requires i >= 0 => from + i)
    else seq(if to <= from then from - to + 1 else 0, i requires i >= 0 => from - i)
  }

  lemma {:induction false} SortedInterval(dir: Direction, lo: int, hi: int)
    requires lo <= hi + 1
    ensures Sorted(dir, Interval(lo, hi))
         == if dir.Up? then Range(Up, lo, hi) else Range(Down, hi, lo)
    decreases hi - lo + 1
  {
    if hi < lo {
    } else {
      var s := Interval(lo, hi);
      if dir.Up? {
        assert s - {lo} == Interval(lo + 1, hi);
        SortedUnfold(dir, s, lo);
        SortedInterval(dir, lo + 1, hi);
        assert [lo] + Range(Up, lo + 1, hi) == Range(Up, lo, hi);
      } else {
        assert s - {hi} == Interval(lo, hi - 1);
        SortedUnfold(dir, s, hi);
        SortedInterval(dir, lo, hi - 1);
        assert [hi] + Range(Down, hi - 1, lo) == Range(Down, hi, lo);
      }
    }
  }

  ghost predicate Distinct(q: seq<int>) {
    forall i, j :: 0 <= i < j < |q| ==> q[i] != q[j]
  }

  /** Sorting keeps every element once, and version 1 can only be the last entry of a
      downward list. */
  lemma {:induction false} SortedElements(dir: Direction, s: set<int>)
    ensures forall v :: v in Sorted(dir, s) <==> v in s
    ensures Distinct(Sorted(dir, s))
    ensures dir.Down? && (forall v :: v in s ==> 1 <= v) ==>
              forall i :: 0 <= i < |Sorted(dir, s)| - 1 ==> Sorted(dir, s)[i] != 1
    decreases |s|
  {
    if s == {} {
    } else {
      FirstVersionExists(dir, s);
      var v :| IsFirst(dir, v, s);
      SortedUnfold(dir, s, v);
      SortedElements(dir, s - {v});
      var rest := Sorted(dir, s - {v});
      var q := [v] + rest;
      assert forall x :: x in q <==> x == v || x in rest;
      assert forall i :: 1 <= i < |q| ==> q[i] == rest[i - 1] && q[i] in rest;
    }
  }

  method SortVersions(dir: Direction, s: set<int>) returns (q: seq<int>)
    ensures q == Sorted(dir, s)
  {
    q := [];
    var rest := s;
    while rest != {}
      invariant q + Sorted(dir, rest) == Sorted(dir, s)
      decreases |rest|
    {
      FirstVersionExists(dir, rest);
      var v :| v in rest && IsFirst(dir, v, rest);
      SortedUnfold(dir, rest, v);
      assert q + ([v] + Sorted(dir, rest - {v})) == q + [v] + Sorted(dir, rest - {v});
      q := q + [v];
      rest := rest - {v};
    }
  }

  // ---- Which versions one call runs ----

  function StepLimit(dir: Direction, o: Opts): int {
    if o.maxSteps != 0 then o.maxSteps
    else if dir.Down? && o.targetVersion == 0 then 1
    else 0
  }

  function Limited(q: seq<int>, limit: int): seq<int> {
    if limit < 0 then []
    else if 0 < limit < |q| then q[..limit]
    else q
  }

  function IndexOf(q: seq<int>, v: int): (i: nat)
    requires v in q
    ensures i < |q| && q[i] == v && v !in q[..i]
  {
    if q[0] == v then 0 else 1 + IndexOf(q[1..], v)
  }

  /** The slice of the sorted list that the options leave over. */
  function Plan(known: set<int>, dir: Direction, o: Opts, sorted: seq<int>): Result<seq<int>, Error> {
    var q := Limited(sorted, StepLimit(dir, o));
    var t := o.targetVersion;
    if t <= 0 then Ok(q)
    else if t !in known then Err(NoSuchVersion(t))
    else if t !in q then Err(NotInTargetList(t))
    else Ok(q[..IndexOf(q, t) + if dir.Down? then 0 else 1])
  }

  /** The sorted candidates: unrecorded versions going up, recorded ones going down. */
  ghost function Candidates(known: set<int>, dir: Direction, rows: set<int>): seq<int> {
    Sorted(dir, if dir.Up? then known - rows else known * rows)
  }

  // ---- The database as the migrator sees it ----

  datatype Statement = Statement(direction: Direction, version: int)

  /** `ledger` holds the rows of `_migration`, or `None` while that table does not exist.
      `schema` holds the versions whose up SQL has run and has not been undone. */
  datatype Db = Db(ledger: Option<set<int>>, schema: set<int>, executed: seq<Statement>) {
    function Rows(): set<int> {
      if ledger.Some? then ledger.value else {}
    }
  }

  /** One version's SQL has run. Version 1 creates and drops the ledger table itself. */
  function Ran(db: Db, dir: Direction, v: int): Db {
    var executed := db.executed + [Statement(dir, v)];
    match dir
    case Up => Db(if v == 1 then Some({}) else db.ledger, db.schema + {v}, executed)
    case Down => Db(if v == 1 then None else db.ledger, db.schema - {v}, executed)
  }

  function RanAll(db: Db, dir: Direction, plan: seq<int>): Db {
    if plan == [] then db else Ran(RanAll(db, dir, plan[..|plan| - 1]), dir, plan[|plan| - 1])
  }

  lemma RanOneMore(db: Db, dir: Direction, plan: seq<int>, v: int)
    ensures RanAll(db, dir, plan + [v]) == Ran(RanAll(db, dir, plan), dir, v)
  {
    assert (plan + [v])[..|plan|] == plan;
  }

  lemma {:induction false} RanLedger(db: Db, dir: Direction, plan: seq<int>)
    ensures RanAll(db, dir, plan).ledger
         == if 1 !in plan then db.ledger else if dir.Up? then Some({}) else None
  {
    if plan == [] {
    } else {
      var n := |plan| - 1;
      RanLedger(db, dir, plan[..n]);
      assert plan == plan[..n] + [plan[n]];
    }
  }

  function SetOf(q: seq<int>): set<int> {
    set v | v in q
  }

  /** The ledger rows written once the SQL has run; nothing is written when version 1 went down. */
  function Recorded(db: Db, dir: Direction, plan: seq<int>): Db {
    match dir
    case Up => db.(ledger := Some(db.Rows() + SetOf(plan)))
    case Down =>
      if plan == [] || 1 in plan then db else db.(ledger := Some(db.Rows() - SetOf(plan)))
  }

  /** The ledger table is absent when version 1 creates it, present when version 1 drops it,
      and present when rows have to be inserted. */
  ghost predicate TableFits(db: Db, dir: Direction, plan: seq<int>) {
    && (1 in plan ==> db.ledger.Some? == dir.Down?)
    && (dir.Up? ==> 1 in plan || db.ledger.Some?)
  }

  /** What a successful call leaves behind. */
  function After(db: Db, dir: Direction, dryRun: bool, plan: seq<int>): Db {
    if dryRun then db else Recorded(RanAll(db, dir, plan), dir, plan)
  }

  class Database {
    var ledger: Option<set<int>>
    ghost var schema: set<int>
    ghost var executed: seq<Statement>
    /** How many calls have failed for a reason outside the migrator's control. */
    ghost var faults: nat

    ghost function State(): Db
      reads this
    {
      Db(ledger, schema, executed)
    }

    /** The rows, or nothing if the query failed. */
    method ExistingMigrations() returns (r: Option<set<int>>)
      modifies this`faults
      ensures r.Some? ==> r.value == State().Rows() && faults == old(faults)
      ensures r.None? ==> faults > old(faults)
    {
      var fails: bool := *;
      if fails {
        faults := faults + 1;
        return None;
      }
      return Some(if ledger.Some? then ledger.value else {});
    }

    /** Runs one version's SQL. Any statement may fail, and creating or dropping the ledger
        table fails when it is already there or already gone. */
    method Exec(dir: Direction, v: int) returns (ok: bool)
      modifies this
      ensures ok ==> State() == Ran(old(State()), dir, v)
      ensures ok && v == 1 ==> old(ledger).Some? == dir.Down?
      ensures !ok ==> State() == old(State())
      ensures ok ==> faults == old(faults)
      ensures !ok && faults == old(faults) ==> v == 1 && ledger.Some? != dir.Down?
    {
      var fails: bool := *;
      if fails {
        faults := faults + 1;
        return false;
      }
      if v == 1 && ledger.Some? != dir.Down? {
        return false;
      }
      if v == 1 {
        ledger := if dir.Up? then Some({}) else None;
      }
      schema := if dir.Up? then schema + {v} else schema - {v};
      executed := executed + [Statement(dir, v)];
      return true;
    }

    /** Inserts or deletes ledger rows; fails when the table is missing. */
    method WriteLedger(dir: Direction, versions: seq<int>) returns (ok: bool)
      modifies this
      ensures ok ==> old(ledger).Some?
      ensures ok ==> State() == old(State()).(ledger := Some(
                       if dir.Up? then old(State()).Rows() + SetOf(versions) else old(State()).Rows() - SetOf(versions)))
      ensures !ok ==> State() == old(State())
      ensures ok ==> faults == old(faults)
      ensures !ok && faults == old(faults) ==> ledger.None?
    {
      var fails: bool := *;
      if fails {
        faults := faults + 1;
        return false;
      }
      if ledger.None? {
        return false;
      }
      ledger := Some(if dir.Up? then ledger.value + SetOf(versions) else ledger.value - SetOf(versions));
      return true;
    }
  }

  // ---- The migrator ----

  /** Cuts the sorted list down to the versions the options leave over. */
  method SelectTargets(known: set<int>, dir: Direction, o: Opts, sorted: seq<int>)
    returns (r: Result<seq<int>, Error>)
    ensures r == Plan(known, dir, o, sorted)
  {
    var maxSteps := 0;
    if o.maxSteps != 0 {
      maxSteps := o.maxSteps;
    } else if dir.Down? && o.targetVersion == 0 {
      maxSteps := 1;
    }
    var targets := sorted;
    if maxSteps < 0 {
      targets := [];
    } else if maxSteps > 0 {
      targets := targets[..if maxSteps < |targets| then maxSteps else |targets|];
    }
    assert targets == Limited(sorted, StepLimit(dir, o));
    if o.targetVersion > 0 {
      if o.targetVersion !in known {
        return Err(NoSuchVersion(o.targetVersion));
      }
      if o.targetVersion !in targets {
        return Err(NotInTargetList(o.targetVersion));
      }
      var targetIndex := IndexOf(targets, o.targetVersion);
      var upTo := targets[..targetIndex + 1];
      if dir.Down? && |upTo| > 0 {
        assert upTo[..|upTo| - 1] == targets[..targetIndex];
        upTo := upTo[..|upTo| - 1];
      }
      targets := upTo;
    }
    return Ok(targets);
  }

  lemma RanRows(db: Db, dir: Direction, plan: seq<int>)
    requires 1 in plan ==> db.ledger.Some? == dir.Down?
    ensures 1 !in plan ==> RanAll(db, dir, plan).ledger == db.ledger
    ensures dir.Up? || 1 !in plan ==> RanAll(db, dir, plan).Rows() == db.Rows()
  {
    RanLedger(db, dir, plan);
  }

  lemma NotBefore(q: seq<int>, i: nat)
    requires Distinct(q) && i < |q|
    ensures q[i] !in q[..i]
  {
  }

  /** Runs the versions in order up to the first failure; `ran` is the part of them that
      reached the database. */
  method RunVersions(db: Database, dir: Direction, dryRun: bool, targets: seq<int>)
    returns (r: Result<seq<int>, Error>, ghost ran: seq<int>)
    requires Distinct(targets)
    modifies db
    ensures ran <= targets
    ensures r.Ok? ==> r.value == targets && ran == (if dryRun then [] else targets) && db.faults == old(db.faults)
    ensures r.Err? ==> !dryRun && ran < targets && r.error == ExecFailed(targets[|ran|])
    ensures r.Err? && db.faults == old(db.faults) ==>
              targets[|ran|] == 1 && old(db.ledger).Some? != dir.Down?
    ensures db.State() == RanAll(old(db.State()), dir, ran)
    ensures dir.Up? || 1 !in ran ==> db.State().Rows() == old(db.State()).Rows()
    ensures 1 in ran ==> old(db.ledger).Some? == dir.Down?
  {
    ghost var was := db.State();
    ran := [];
    var versions: seq<int> := [];
    for i := 0 to |targets|
      invariant versions == targets[..i]
      invariant ran == if dryRun then [] else versions
      invariant db.State() == RanAll(was, dir, ran)
      invariant 1 in ran ==> was.ledger.Some? == dir.Down?
      invariant db.faults == old(db.faults)
    {
      assert targets[..i + 1] == versions + [targets[i]];
      if !dryRun {
        RanRows(was, dir, ran);
        NotBefore(targets, i);
        RanOneMore(was, dir, ran, targets[i]);
        var done := db.Exec(dir, targets[i]);
        if !done {
          return Err(ExecFailed(targets[i])), ran;
        }
        ran := ran + [targets[i]];
      }
      versions := versions + [targets[i]];
    }
    RanRows(was, dir, ran);
    assert targets[..|targets|] == targets;
    return Ok(versions), ran;
  }

  lemma PlanIsDistinct(known: set<int>, dir: Direction, o: Opts, sorted: seq<int>)
    requires Distinct(sorted)
    ensures Plan(known, dir, o, sorted).Ok? ==>
              Plan(known, dir, o, sorted).value <= sorted && Distinct(Plan(known, dir, o, sorted).value)
  {
  }

  /** Selects the versions and runs them. */
  method ApplyMigrations(db: Database, known: set<int>, dir: Direction, o: Opts, sorted: seq<int>)
    returns (r: Result<seq<int>, Error>, ghost ran: seq<int>)
    requires Distinct(sorted)
    modifies db
    ensures var plan := Plan(known, dir, o, sorted);
            && (plan.Err? ==> r == plan && ran == [])
            && (plan.Ok? ==> ran <= plan.value)
            && (r.Ok? ==> r == plan && ran == (if o.dryRun then [] else r.value) && db.faults == old(db.faults))
            && (r.Err? && plan.Ok? ==>
                  && !o.dryRun && ran < plan.value && r.error == ExecFailed(plan.value[|ran|])
                  && (db.faults == old(db.faults) ==>
                        r.error.version == 1 && old(db.ledger).Some? != dir.Down?))
    ensures db.State() == RanAll(old(db.State()), dir, ran)
    ensures dir.Up? || 1 !in ran ==> db.State().Rows() == old(db.State()).Rows()
    ensures 1 in ran ==> old(db.ledger).Some? == dir.Down?
  {
    var selected := SelectTargets(known, dir, o, sorted);
    PlanIsDistinct(known, dir, o, sorted);
    if selected.Err? {
      return selected, [];
    }
    r, ran := RunVersions(db, dir, o.dryRun, selected.value);
  }

  datatype Call = Call(dir: Direction, opts: Opts)

  /** What a successful call does: it records what it plans and runs, with the ledger table there
      where its statements need it. */
  ghost predicate Succeeds(known: set<int>, call: Call, db: Db, db': Db) {
    var plan := Plan(known, call.dir, call.opts, Candidates(known, call.dir, db.Rows()));
    && plan.Ok?
    && db' == After(db, call.dir, call.opts.dryRun, plan.value)
    && (!call.opts.dryRun ==> TableFits(db, call.dir, plan.value))
  }

  function Given(opts: Option<Opts>): Opts {
    if opts.Some? then opts.value else DEFAULTS
  }

  /** How a call may end. Without a fault in the database (`clean`) it can only fail on rejected
      options, or on a ledger table that is there or missing against the plan. A panic leaves the
      SQL executed and the ledger as it was. */
  ghost predicate Ends(
      known: set<int>, dir: Direction, opts: Option<Opts>, was: Db, now: Db, clean: bool, r: Outcome)
  {
    var o := Given(opts);
    var plan := Plan(known, dir, o, Candidates(known, dir, was.Rows()));
    match r
    case Applied(versions) => plan == Ok(versions) && Succeeds(known, Call(dir, o), was, now)
    case Failed(e) =>
      && now.Rows() == was.Rows()
      && (plan.Err? || e == ReadFailed ==> now == was && (e == ReadFailed || e == plan.error))
      && (plan.Ok? ==> exists ran :: ran <= plan.value && now == RanAll(was, dir, ran) && (o.dryRun ==> ran == []))
      && (clean ==> plan.Err? || (!o.dryRun && !TableFits(was, dir, plan.value)))
    case Panicked =>
      && dir.Down? && opts.None? && plan.Ok? && plan.value != [] && 1 !in plan.value
      && now == RanAll(was, dir, plan.value)
  }

  /** What both directions do before the ledger is written. */
  method Apply(db: Database, known: set<int>, dir: Direction, opts: Option<Opts>)
    returns (r: Result<seq<int>, Error>)
    requires forall v :: v in known ==> 1 <= v
    modifies db
    ensures var o := Given(opts);
            var was := old(db.State());
            var plan := Plan(known, dir, o, Candidates(known, dir, was.Rows()));
            if r.Ok? then
              && plan == r && db.faults == old(db.faults)
              && db.State() == (if o.dryRun then was else RanAll(was, dir, r.value))
              && (!o.dryRun && 1 in r.value ==> was.ledger.Some? == dir.Down?)
            else Ends(known, dir, opts, was, db.State(), db.faults == old(db.faults), Failed(r.error))
  {
    var existing := db.ExistingMigrations();
    ghost var was := db.State();
    if existing.None? {
      assert was == RanAll(was, dir, []);
      return Err(ReadFailed);
    }
    var targets := if dir.Up? then known - existing.value else known * existing.value;
    var sorted := SortVersions(dir, targets);
    SortedElements(dir, targets);
    ghost var ran;
    r, ran := ApplyMigrations(db, known, dir, Given(opts), sorted);
    if r.Err? && dir.Down? && |ran| < |sorted| && ran <= sorted {
      assert 1 !in ran;
    }
  }

  method MigrateDown(db: Database, known: set<int>, opts: Option<Opts>) returns (r: Outcome)
    requires forall v :: v in known ==> 1 <= v
    modifies db
    ensures Ends(known, Down, opts, old(db.State()), db.State(), db.faults == old(db.faults), r)
    ensures r.Applied? && opts.None? ==> r.versions == [] || 1 in r.versions
  {
    ghost var was := db.State();
    var res := Apply(db, known, Down, opts);
    if res.Err? {
      return Failed(res.error);
    }
    var versions := res.value;
    RanLedger(was, Down, versions);
    if |versions| < 1 || 1 in versions {
      return Applied(versions);
    }
    if opts.None? {
      return Panicked;
    }
    if !opts.value.dryRun {
      var ok := db.WriteLedger(Down, versions);
      if !ok {
        return Failed(LedgerWriteFailed);
      }
    }
    return Applied(versions);
  }

  method MigrateUp(db: Database, known: set<int>, opts: Option<Opts>) returns (r: Outcome)
    requires forall v :: v in known ==> 1 <= v
    modifies db
    ensures Ends(known, Up, opts, old(db.State()), db.State(), db.faults == old(db.faults), r)
  {
    ghost var was := db.State();
    var res := Apply(db, known, Up, opts);
    if res.Err? {
      return Failed(res.error);
    }
    var versions := res.value;
    RanLedger(was, Up, versions);
    if opts.None? || !opts.value.dryRun {
      var ok := db.WriteLedger(Up, versions);
      if !ok {
        return Failed(LedgerWriteFailed);
      }
    }
    return Applied(versions);
  }

  method Migrate(db: Database, known: set<int>, dir: Direction, opts: Option<Opts>)
    returns (r: Outcome)
    requires forall v :: v in known ==> 1 <= v
    modifies db
    ensures Ends(known, dir, opts, old(db.State()), db.State(), db.faults == old(db.faults), r)
    ensures r.Applied? && dir.Down? && opts.None? ==> r.versions == [] || 1 in r.versions
  {
    match dir
    case Up => r := MigrateUp(db, known, opts);
    case Down => r := MigrateDown(db, known, opts);
  }

  lemma {:induction false} RanSchema(db: Db, dir: Direction, plan: seq<int>)
    ensures RanAll(db, dir, plan).schema
         == if dir.Up? then db.schema + SetOf(plan) else db.schema - SetOf(plan)
  {
    if plan == [] {
    } else {
      var n := |plan| - 1;
      RanSchema(db, dir, plan[..n]);
      assert plan == plan[..n] + [plan[n]];
      assert SetOf(plan) == SetOf(plan[..n]) + {plan[n]};
    }
  }

  lemma RanAllEffect(db: Db, dir: Direction, plan: seq<int>)
    ensures RanAll(db, dir, plan).schema
         == if dir.Up? then db.schema + SetOf(plan) else db.schema - SetOf(plan)
    ensures RanAll(db, dir, plan).ledger
         == if 1 !in plan then db.ledger else if dir.Up? then Some({}) else None
  {
    RanSchema(db, dir, plan);
    RanLedger(db, dir, plan);
  }

  /** The ledger lists 1 to `k`, and the schema is the one those versions build. */
  ghost predicate At(db: Db, k: nat) {
    db.Rows() == Versions(k) && db.schema == Versions(k) && (k == 0 ==> db.ledger.None?)
  }

  function Max(a: int, b: int): int {
    if a < b then b else a
  }

  function Min(a: int, b: int): int {
    if a < b then a else b
  }

  /** Where an up run from version `k` of `n` ends, or nothing when the options are rejected. */
  function UpGoal(n: nat, k: nat, o: Opts): Option<nat>
    requires k <= n
  {
    var reach := if o.maxSteps < 0 then k else if o.maxSteps > 0 then Min(n, k + o.maxSteps) else n;
    if o.targetVersion <= 0 then Some(reach)
    else if k < o.targetVersion <= reach then Some(o.targetVersion)
    else None
  }

  /** Where a down run from version `k` ends, or nothing when the options are rejected. */
  function DownGoal(k: nat, o: Opts): Option<nat> {
    var floor :=
      if o.maxSteps < 0 then k
      else if o.maxSteps > 0 then Max(0, k - o.maxSteps)
      else if o.targetVersion == 0 then Max(0, k - 1)
      else 0;
    if o.targetVersion <= 0 then Some(floor)
    else if floor < o.targetVersion <= k then Some(o.targetVersion)
    else None
  }

  function Goal(n: nat, k: nat, dir: Direction, o: Opts): Option<nat>
    requires k <= n
  {
    if dir.Up? then UpGoal(n, k, o) else DownGoal(k, o)
  }

  /** The versions between where the ledger stands and the goal, in running order. */
  function Steps(k: nat, dir: Direction, g: nat): seq<int> {
    if dir.Up? then Range(Up, k + 1, g) else Range(Down, k, g + 1)
  }

  lemma CandidatesAre(n: nat, k: nat, dir: Direction)
    requires k <= n
    ensures Candidates(Versions(n), dir, Versions(k)) == Steps(k, dir, if dir.Up? then n else 0)
  {
    if dir.Up? {
      assert Versions(n) - Versions(k) == Interval(k + 1, n);
      SortedInterval(Up, k + 1, n);
    } else {
      assert Versions(n) * Versions(k) == Interval(1, k);
      SortedInterval(Down, 1, k);
    }
  }

  /** Cutting a run of consecutive versions at one of them. */
  lemma CutAt(k: nat, dir: Direction, g: nat, t: int)
    ensures t in Steps(k, dir, g) <==> if dir.Up? then k < t <= g else g < t <= k
    ensures t in Steps(k, dir, g) ==>
              && 0 < t
              && IndexOf(Steps(k, dir, g), t) == (if dir.Up? then t - k - 1 else k - t)
              && Steps(k, dir, g)[..IndexOf(Steps(k, dir, g), t) + if dir.Down? then 0 else 1] == Steps(k, dir, t)
  {
    var q := Steps(k, dir, g);
    if (if dir.Up? then k < t <= g else g < t <= k) {
      assert q[if dir.Up? then t - k - 1 else k - t] == t;
    }
    if t in q {
      var i := IndexOf(q, t);
      assert t == if dir.Up? then k + 1 + i else k - i;
    }
  }

  /** The plan in closed form: consecutive versions from where the ledger stands to the goal. */
  lemma PlanIsInterval(n: nat, k: nat, dir: Direction, o: Opts)
    requires k <= n
    ensures var plan := Plan(Versions(n), dir, o, Candidates(Versions(n), dir, Versions(k)));
            match Goal(n, k, dir, o)
            case None => plan.Err?
            case Some(g) => plan == Ok(Steps(k, dir, g))
  {
    CandidatesAre(n, k, dir);
    var unlimited := o.(targetVersion := if o.targetVersion > 0 then -1 else o.targetVersion);
    var reach := Goal(n, k, dir, unlimited).value;
    var q := Limited(Steps(k, dir, if dir.Up? then n else 0), StepLimit(dir, o));
    assert q == Steps(k, dir, reach);
    CutAt(k, dir, reach, o.targetVersion);
  }

  /** The effect of running a whole interval of versions and recording it. */
  lemma AfterSteps(k: nat, dir: Direction, g: nat, db: Db)
    requires At(db, k) && if dir.Up? then k <= g else g <= k
    ensures var after := After(db, dir, false, Steps(k, dir, g));
            && after.Rows() == Versions(g) && after.schema == Versions(g)
            && (dir.Down? || 0 < g ==> At(after, g))
  {
    var plan := Steps(k, dir, g);
    RanAllEffect(db, dir, plan);
    forall v ensures v in SetOf(plan) <==> if dir.Up? then k < v <= g else g < v <= k {
      CutAt(k, dir, g, v);
    }
  }

  /** The central law: a successful run takes a ledger 1..k to 1..g, where g is the goal, and
      the schema with it; a dry run or a rejected one changes neither. */
  lemma LedgerStaysPrefix(n: nat, k: nat, dir: Direction, o: Opts, db: Db)
    requires k <= n && At(db, k)
    ensures var plan := Plan(Versions(n), dir, o, Candidates(Versions(n), dir, db.Rows()));
            match Goal(n, k, dir, o)
            case None => plan.Err?
            case Some(g) =>
              && plan == Ok(Steps(k, dir, g))
              && After(db, dir, true, plan.value) == db
              && var after := After(db, dir, false, plan.value);
                 && after.Rows() == Versions(g) && after.schema == Versions(g)
                 && (dir.Down? || 0 < g ==> At(after, g))
  {
    PlanIsInterval(n, k, dir, o);
    if Goal(n, k, dir, o).Some? {
      AfterSteps(k, dir, Goal(n, k, dir, o).value, db);
    }
  }

  /** From a consistent database the table is in place for every plan but the empty one. */
  lemma TableFitsUnlessNothingToCreate(k: nat, dir: Direction, g: nat, db: Db)
    requires At(db, k) && if dir.Up? then k <= g else g <= k
    ensures TableFits(db, dir, Steps(k, dir, g)) <==> !(dir.Up? && k == 0 == g)
  {
    CutAt(k, dir, g, 1);
    if k > 0 {
      assert k in Versions(k);
    }
  }

  /** From a consistent database an up run that is no dry run can succeed exactly when its options
      are accepted and it does not select nothing on a database without a ledger table. */
  lemma UpSucceedsUnlessNothingSelected(n: nat, k: nat, o: Opts, db: Db)
    requires k <= n && At(db, k) && !o.dryRun
    ensures (exists db' :: Succeeds(Versions(n), Call(Up, o), db, db')) <==>
              UpGoal(n, k, o).Some? && !(k == 0 && UpGoal(n, k, o) == Some(0))
  {
    PlanIsInterval(n, k, Up, o);
    if UpGoal(n, k, o).Some? {
      var g := UpGoal(n, k, o).value;
      TableFitsUnlessNothingToCreate(k, Up, g, db);
      var db' := After(db, Up, false, Steps(k, Up, g));
      assert TableFits(db, Up, Steps(k, Up, g)) ==> Succeeds(Versions(n), Call(Up, o), db, db');
    }
  }

  /** Such a run ends in an error: the INSERT finds no table. */
  method UpSelectingNothingFails(db: Database, n: nat, opts: Option<Opts>) returns (r: Outcome)
    requires At(db.State(), 0) && !Given(opts).dryRun && UpGoal(n, 0, Given(opts)) == Some(0)
    modifies db
    ensures r.Failed? && db.State() == old(db.State())
  {
    UpSucceedsUnlessNothingSelected(n, 0, Given(opts), db.State());
    PlanIsInterval(n, 0, Up, Given(opts));
    assert Steps(0, Up, 0) == [];
    r := Migrate(db, Versions(n), Up, opts);
  }

  /** Going up to `t` and back down to where it started restores the ledger and the schema. */
  lemma UpThenDownRestores(n: nat, k: nat, t: nat, db: Db)
    requires k < t <= n && At(db, k)
    ensures var up := Opts(false, 0, t);
            var down := Opts(false, 0, if k == 0 then -1 else k);
            var there := Plan(Versions(n), Up, up, Candidates(Versions(n), Up, db.Rows()));
            && there.Ok?
            && var mid := After(db, Up, false, there.value);
               var back := Plan(Versions(n), Down, down, Candidates(Versions(n), Down, mid.Rows()));
               && back.Ok?
               && var end := After(mid, Down, false, back.value);
                  At(end, k) && end.ledger.Some? == (k > 0)
  {
    var up, down := Opts(false, 0, t), Opts(false, 0, if k == 0 then -1 else k);
    LedgerStaysPrefix(n, k, Up, up, db);
    var there := Plan(Versions(n), Up, up, Candidates(Versions(n), Up, db.Rows()));
    LedgerStaysPrefix(n, t, Down, down, After(db, Up, false, there.value));
    assert k > 0 ==> k in Versions(k);
  }

  /** When an Exec fails part-way the ledger still agrees with the schema only if nothing ran. */
  lemma FailureDisagrees(n: nat, k: nat, dir: Direction, g: nat, db: Db, ran: seq<int>)
    requires k <= n && At(db, k)
    requires ran <= Steps(k, dir, g)
    requires dir.Down? ==> 1 !in ran
    ensures RanAll(db, dir, ran).Rows() == RanAll(db, dir, ran).schema <==> ran == []
  {
    RanAllEffect(db, dir, ran);
    if ran != [] {
      assert ran[0] == if dir.Up? then k + 1 else k;
      assert ran[0] in ran;
    }
  }

  /** A binary that knows only `n` of the `k` versions in the ledger plans as if the ledger ended
      at `n`. */
  lemma PlanFromNewerLedger(n: nat, k: nat, o: Opts)
    requires n < k
    ensures var plan := Plan(Versions(n), Down, o, Candidates(Versions(n), Down, Versions(k)));
            match DownGoal(n, o)
            case None => plan.Err?
            case Some(g) => g <= n && plan == Ok(Steps(n, Down, g))
  {
    assert Versions(n) * Versions(k) == Versions(n) * Versions(n);
    PlanIsInterval(n, n, Down, o);
  }

  lemma RemovedFromNewerLedger(n: nat, k: nat, g: nat, db: Db)
    requires n < k && g <= n && At(db, k)
    ensures var after := After(db, Down, false, Steps(n, Down, g));
            (exists m: nat :: after.Rows() == Versions(m)) <==> g == n || g == 0
  {
    var plan := Steps(n, Down, g);
    RanAllEffect(db, Down, plan);
    var after := After(db, Down, false, plan);
    if g == n {
      assert plan == [];
      assert after.Rows() == Versions(k);
    } else if g == 0 {
      assert plan[n - 1] == 1;
      assert after.Rows() == Versions(0);
    } else {
      assert plan[0] == n;
      assert n in SetOf(plan) && n !in after.Rows() && k in after.Rows();
      assert forall m: nat :: k in Versions(m) ==> n in Versions(m);
      forall m: nat | after.Rows() == Versions(m) ensures false {
        assert false;
      }
    }
  }

  /** Whatever the options, a down run by such a binary leaves a prefix exactly when its goal is
      `n`, so that it removes nothing, or 0, so that version 1 takes the table along. */
  lemma DownFromNewerLedger(n: nat, k: nat, o: Opts, db: Db)
    requires n < k && At(db, k)
    ensures var plan := Plan(Versions(n), Down, o, Candidates(Versions(n), Down, db.Rows()));
            match DownGoal(n, o)
            case None => plan.Err?
            case Some(g) =>
              && plan == Ok(Steps(n, Down, g))
              && var after := After(db, Down, false, plan.value);
                 (exists m: nat :: after.Rows() == Versions(m)) <==> g == n || g == 0
  {
    PlanFromNewerLedger(n, k, o);
    if DownGoal(n, o).Some? {
      RemovedFromNewerLedger(n, k, DownGoal(n, o).value, db);
    }
  }

  /** The documentation calls the options optional, but a down run without them dereferences
      nil after the SQL ran: exactly from version 2 upwards, leaving a stale ledger row. */
  lemma NilOptionsPanicFromVersionTwo(n: nat, k: nat, db: Db)
    requires k <= n && At(db, k)
    ensures var plan := Plan(Versions(n), Down, DEFAULTS, Candidates(Versions(n), Down, db.Rows()));
            && plan.Ok?
            && (plan.value != [] && 1 !in plan.value <==> k >= 2)
            && (k >= 2 ==> (&& RanAll(db, Down, plan.value).schema == Versions(k - 1)
                            && RanAll(db, Down, plan.value).Rows() == Versions(k)))
  {
    PlanIsInterval(n, k, Down, DEFAULTS);
    var plan := Range(Down, k, Max(0, k - 1) + 1);
    RanAllEffect(db, Down, plan);
    if k >= 1 {
      assert plan == [k];
    }
  }

  // ---- Properties over whole histories ----

  /** The databases a sequence of successful calls passes through. */
  ghost predicate History(n: nat, calls: seq<Call>, dbs: seq<Db>) {
    && |dbs| == |calls| + 1
    && forall i :: 0 <= i < |calls| ==> Succeeds(Versions(n), calls[i], dbs[i], dbs[i + 1])
  }

  /** Over any history of successful calls the ledger is a prefix of the known versions and
      lists exactly the versions whose SQL ran and was not undone. */
  lemma {:induction false} LedgerAgreesWithSchema(n: nat, calls: seq<Call>, dbs: seq<Db>)
    requires History(n, calls, dbs) && At(dbs[0], 0)
    ensures exists k: nat :: k <= n && At(dbs[|calls|], k)
    decreases |calls|
  {
    if calls == [] {
      assert At(dbs[0], 0);
    } else {
      var m := |calls| - 1;
      assert History(n, calls[..m], dbs[..m + 1]) by {
        forall i | 0 <= i < m ensures Succeeds(Versions(n), calls[..m][i], dbs[..m + 1][i], dbs[..m + 1][i + 1]) {
          assert Succeeds(Versions(n), calls[i], dbs[i], dbs[i + 1]);
        }
      }
      LedgerAgreesWithSchema(n, calls[..m], dbs[..m + 1]);
      var k: nat :| k <= n && At(dbs[m], k);
      var c := calls[m];
      assert Succeeds(Versions(n), c, dbs[m], dbs[m + 1]);
      LedgerStaysPrefix(n, k, c.dir, c.opts, dbs[m]);
      if c.opts.dryRun {
        assert At(dbs[m + 1], k);
      } else {
        var g := Goal(n, k, c.dir, c.opts).value;
        if c.dir.Up? && g == 0 {
          PlanIsInterval(n, k, Up, c.opts);
        }
        assert At(dbs[m + 1], g);
      }
    }
  }
}
