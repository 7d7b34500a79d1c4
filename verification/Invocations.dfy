/** The invocations table: inserting jobs, claiming them with SKIP LOCKED, and finalising them. */
module Invocations {
  import opened Common

  datatype JobState = Available | Running | Completed | Discarded

  datatype Row = Row(
    state: JobState,
    queue: int,
    priority: int,
    payload: string,
    attemptedBy: seq<int>,
    attemptedAt: Option<int>,
    finalizedAt: Option<int>,
    result: Option<string>,
    errors: Option<string>)

  type Rows = map<int, Row>

  /** The priority the manager gives every job. */
  const PRIORITY := 1

  // ---- The statements ----

  function Inserted(rows: Rows, id: int, queue: int, payload: string): Rows {
    rows[id := Row(Available, queue, PRIORITY, payload, [], None, None, None, None)]
  }

  /** ORDER BY priority ASC, id ASC. */
  predicate Before(rows: Rows, a: int, b: int)
    requires a in rows && b in rows
  {
    rows[a].priority < rows[b].priority || (rows[a].priority == rows[b].priority && a < b)
  }

  /** The rows a claim on `queue` may take: available, and not locked by another transaction. */
  function Free(rows: Rows, locked: set<int>, queue: int): set<int> {
    set j | j in rows && rows[j].state == Available && rows[j].queue == queue && j !in locked
  }

  predicate IsFirst(rows: Rows, j: int, s: set<int>)
    requires s <= rows.Keys
  {
    j in s && forall k :: k in s && k != j ==> Before(rows, j, k)
  }

  lemma FirstRowExists(rows: Rows, s: set<int>)
    requires s <= rows.Keys && s != {}
    ensures exists j :: IsFirst(rows, j, s)
  {
    var order := (a, b) => a in rows && b in rows && (a == b || Before(rows, a, b));
    FirstExists(s, order);
    var j :| Leads(j, s, order);
    assert IsFirst(rows, j, s);
  }

  /** The rows the locking SELECT returns: the first `max` free ones in order. */
  ghost function Picked(rows: Rows, locked: set<int>, queue: int, max: nat): set<int>
    decreases max
  {
    var free := Free(rows, locked, queue);
    if max == 0 || free == {} then {}
    else
      FirstRowExists(rows, free);
      var j :| IsFirst(rows, j, free);
      {j} + Picked(rows, locked + {j}, queue, max - 1)
  }

  /** The UPDATE half of a claim. */
  function Claimed(rows: Rows, ids: set<int>, actor: int, now: int): Rows {
    map j | j in rows ::
      if j in ids
      then rows[j].(state := Running, attemptedAt := Some(now), attemptedBy := rows[j].attemptedBy + [actor])
      else rows[j]
  }

  /** The row both finalising statements look for. */
  predicate MayFinalize(rows: Rows, id: int, actor: int) {
    && id in rows && rows[id].state == Running
    && |rows[id].attemptedBy| > 0 && rows[id].attemptedBy[|rows[id].attemptedBy| - 1] == actor
  }

  /** What an actor reports back. */
  datatype Report = Answer(result: string) | Failure(errors: string)

  function Finalized(rows: Rows, id: int, report: Report, now: int): Rows
    requires id in rows
  {
    rows[id := match report
               case Answer(r) => rows[id].(state := Completed, finalizedAt := Some(now), result := Some(r))
               case Failure(e) => rows[id].(state := Discarded, finalizedAt := Some(now), errors := Some(e))]
  }

  /** A claim takes only available, unlocked rows of its queue, and passes such a row over only
      when the limit is reached by rows of smaller priority number, or of the same and smaller id. */
  ghost predicate TakesFirst(rows: Rows, locked: set<int>, queue: int, max: nat, ids: set<int>) {
    && |ids| <= max
    && (forall j :: j in ids ==> j in rows && rows[j].state == Available && rows[j].queue == queue && j !in locked)
    && (forall j :: j in rows && rows[j].state == Available && rows[j].queue == queue && j !in locked && j !in ids ==>
          && |ids| == max
          && forall k :: k in ids ==>
               rows[k].priority < rows[j].priority || (rows[k].priority == rows[j].priority && k < j))
  }

  class InvocationTable {
    var rows: map<int, Row>
    /** The next value of the id sequence. */
    var nextId: int
    /** The response notifications sent, oldest first. */
    var announced: seq<int>
    /** The queues named in the invoke notifications sent, oldest first. */
    var invoked: seq<int>

    /** Inserts for the actor's queue and names the queue in a notification; an unknown actor
        inserts nothing. */
    method Insert(actors: map<string, int>, actorName: string, payload: string) returns (id: Option<int>)
      requires forall j :: j in rows ==> j < nextId
      modifies this
      ensures announced == old(announced)
      ensures id.Some? <==> actorName in actors
      ensures id.None? ==> rows == old(rows) && nextId == old(nextId) && invoked == old(invoked)
      ensures id.Some? ==> && id.value == old(nextId) && id.value !in old(rows)
                           && rows == Inserted(old(rows), id.value, actors[actorName], payload)
                           && rows[id.value].state == Available && rows[id.value].attemptedBy == []
                           && rows[id.value].queue == actors[actorName] && rows[id.value].payload == payload
                           && nextId == old(nextId) + 1 && invoked == old(invoked) + [actors[actorName]]
    {
      if actorName !in actors {
        return None;
      }
      rows := rows[nextId := Row(Available, actors[actorName], PRIORITY, payload, [], None, None, None, None)];
      nextId := nextId + 1;
      invoked := invoked + [actors[actorName]];
      return Some(nextId - 1);
    }

    /** The locking SELECT of a claim, with the rows other transactions hold locked. */
    method SelectForUpdate(locked: set<int>, queue: int, max: nat) returns (ids: set<int>)
      ensures ids == Picked(rows, locked, queue, max)
      ensures TakesFirst(rows, locked, queue, max, ids)
    {
      ids := {};
      var left, taken := max, locked;
      var free := Free(rows, taken, queue);
      while left > 0 && free != {}
        invariant free == Free(rows, taken, queue)
        invariant ids + Picked(rows, taken, queue, left) == Picked(rows, locked, queue, max)
        decreases left
      {
        FirstRowExists(rows, free);
        var j :| j in free && IsFirst(rows, j, free);
        PickedUnfold(rows, taken, queue, left, j);
        ids, taken, left := ids + {j}, taken + {j}, left - 1;
        free := Free(rows, taken, queue);
      }
      PickedTakesFirst(rows, locked, queue, max);
    }

    /** The claiming statement: it marks exactly the rows it selects as running under the actor. */
    method GetAvailable(locked: set<int>, actor: int, queue: int, max: nat, now: int) returns (ids: set<int>)
      modifies this`rows
      ensures ids == Picked(old(rows), locked, queue, max)
      ensures TakesFirst(old(rows), locked, queue, max, ids)
      ensures rows == Claimed(old(rows), ids, actor, now)
      ensures forall j :: j in ids ==>
                && rows[j].state == Running && rows[j].attemptedAt == Some(now)
                && rows[j].attemptedBy == old(rows[j]).attemptedBy + [actor]
    {
      ids := SelectForUpdate(locked, queue, max);
      rows := Claimed(rows, ids, actor, now);
    }

    /** Returns a result or an error list; true only for the claimer of a running job. */
    method ReturnInvocation(id: int, actor: int, report: Report, now: int) returns (accepted: bool)
      modifies this`rows, this`announced
      ensures accepted <==> MayFinalize(old(rows), id, actor)
      ensures accepted ==> rows == Finalized(old(rows), id, report, now) && announced == old(announced) + [id]
      ensures accepted ==>
                && rows[id].finalizedAt == Some(now)
                && rows[id].state == (if report.Answer? then Completed else Discarded)
                && (report.Answer? ==> rows[id].result == Some(report.result) && rows[id].errors == old(rows[id]).errors)
                && (report.Failure? ==> rows[id].errors == Some(report.errors) && rows[id].result == old(rows[id]).result)
      ensures !accepted ==> rows == old(rows) && announced == old(announced)
    {
      if id !in rows || rows[id].state != Running {
        return false;
      }
      var attempts := rows[id].attemptedBy;
      if |attempts| == 0 || attempts[|attempts| - 1] != actor {
        return false;
      }
      match report {
        case Answer(r) =>
          rows := rows[id := rows[id].(state := Completed, finalizedAt := Some(now), result := Some(r))];
        case Failure(e) =>
          rows := rows[id := rows[id].(state := Discarded, finalizedAt := Some(now), errors := Some(e))];
      }
      announced := announced + [id];
      return true;
    }
  }

  lemma PickedUnfold(rows: Rows, locked: set<int>, queue: int, max: nat, j: int)
    requires max > 0 && IsFirst(rows, j, Free(rows, locked, queue))
    ensures Picked(rows, locked, queue, max) == {j} + Picked(rows, locked + {j}, queue, max - 1)
  {
    var free := Free(rows, locked, queue);
    FirstRowExists(rows, free);
    var k :| IsFirst(rows, k, free)
             && Picked(rows, locked, queue, max) == {k} + Picked(rows, locked + {k}, queue, max - 1);
    assert j == k;
  }

  /** What the locking SELECT means: as many available, unlocked rows of the queue as allowed,
      and the earliest ones. */
  lemma {:induction false} PickedAreFirst(rows: Rows, locked: set<int>, queue: int, max: nat)
    ensures var picked, free := Picked(rows, locked, queue, max), Free(rows, locked, queue);
            && picked <= free
            && |picked| == (if |free| < max then |free| else max)
            && forall a, b :: a in picked && b in free - picked ==> Before(rows, a, b)
    decreases max
  {
    var free := Free(rows, locked, queue);
    if max == 0 || free == {} {
    } else {
      FirstRowExists(rows, free);
      var j :| IsFirst(rows, j, free);
      PickedUnfold(rows, locked, queue, max, j);
      PickedAreFirst(rows, locked + {j}, queue, max - 1);
      assert Free(rows, locked + {j}, queue) == free - {j};
    }
  }

  lemma PickedTakesFirst(rows: Rows, locked: set<int>, queue: int, max: nat)
    ensures TakesFirst(rows, locked, queue, max, Picked(rows, locked, queue, max))
  {
    PickedAreFirst(rows, locked, queue, max);
    var picked, free := Picked(rows, locked, queue, max), Free(rows, locked, queue);
    forall j | j in rows && rows[j].state == Available && rows[j].queue == queue && j !in locked && j !in picked
      ensures |picked| == max
      ensures forall k :: k in picked ==>
                rows[k].priority < rows[j].priority || (rows[k].priority == rows[j].priority && k < j)
    {
      assert j in free - picked;
      if |free| <= max {
        Subset(picked, free);
      }
    }
  }

  lemma Subset(a: set<int>, b: set<int>)
    requires a <= b
    ensures |a| == |b| ==> a == b
  {
    assert b == a + (b - a);
  }

  // ---- The protocol: claims that overlap ----

  /** A claim on a queue between its locking SELECT and its commit. */
  datatype Claim = Claim(actor: int, queue: int, ids: set<int>)

  /** `locked` is the lock table; `granted` and `announced` record the jobs handed out and the
      response notifications sent. */
  datatype State = State(
    rows: Rows,
    nextId: int,
    claims: map<int, Claim>,
    locked: set<int>,
    granted: seq<int>,
    announced: seq<int>)

  const INIT := State(map[], 1, map[], {}, [], [])

  datatype Action =
    | Insert(queue: int, payload: string)
    | Lock(tx: int, actor: int, queue: int, max: nat)
    | Commit(tx: int, now: int, order: seq<int>)
    | Abort(tx: int)
    | Report(id: int, actor: int, report: Report, now: int)

  /** A commit hands its rows out in some order. Aborts happen only in a faulty environment. */
  ghost predicate Enabled(faulty: bool, a: Action, s: State) {
    match a
    case Insert(_, _) => true
    case Lock(tx, _, _, _) => tx !in s.claims
    case Commit(tx, _, order) =>
      tx in s.claims && Distinct(order) && forall j :: j in order <==> j in s.claims[tx].ids
    case Abort(tx) => faulty && tx in s.claims
    case Report(id, actor, _, _) => MayFinalize(s.rows, id, actor)
  }

  ghost function Apply(a: Action, s: State): State
    requires Enabled(true, a, s)
  {
    match a
    case Insert(q, p) => s.(rows := Inserted(s.rows, s.nextId, q, p), nextId := s.nextId + 1)
    case Lock(tx, actor, q, max) =>
      var ids := Picked(s.rows, s.locked, q, max);
      s.(claims := s.claims[tx := Claim(actor, q, ids)], locked := s.locked + ids)
    case Commit(tx, now, order) =>
      s.(rows := Claimed(s.rows, s.claims[tx].ids, s.claims[tx].actor, now),
         claims := s.claims - {tx}, locked := s.locked - s.claims[tx].ids, granted := s.granted + order)
    case Abort(tx) => s.(claims := s.claims - {tx}, locked := s.locked - s.claims[tx].ids)
    case Report(id, _, r, now) =>
      s.(rows := Finalized(s.rows, id, r, now), announced := s.announced + [id])
  }

  /** Row by row: who attempted it and what it may hold in each state. */
  ghost predicate RowFits(r: Row) {
    match r.state
    case Available => r.attemptedBy == [] && r.finalizedAt.None? && r.result.None? && r.errors.None?
    case Running => |r.attemptedBy| == 1 && r.finalizedAt.None? && r.result.None? && r.errors.None?
    case Completed => |r.attemptedBy| == 1 && r.finalizedAt.Some? && r.result.Some? && r.errors.None?
    case Discarded => |r.attemptedBy| == 1 && r.finalizedAt.Some? && r.result.None? && r.errors.Some?
  }

  ghost predicate Distinct(q: seq<int>) {
    forall m, n :: 0 <= m < n < |q| ==> q[m] != q[n]
  }

  ghost predicate RowsFit(s: State) {
    forall j :: j in s.rows ==> j < s.nextId && RowFits(s.rows[j]) && s.rows[j].priority == PRIORITY
  }

  /** Overlapping claims hold disjoint sets of available jobs of their own queues, and those are
      locked. */
  ghost predicate ClaimsFit(s: State) {
    && (forall j :: j in s.locked ==> j in s.rows && s.rows[j].state == Available)
    && (forall t :: t in s.claims ==> s.claims[t].ids <= s.locked)
    && (forall t, j :: t in s.claims && j in s.claims[t].ids ==> s.rows[j].queue == s.claims[t].queue)
    && (forall t, u :: t in s.claims && u in s.claims && t != u ==> s.claims[t].ids !! s.claims[u].ids)
  }

  /** Each job is granted exactly once, when it stops being available, and announced exactly
      once, when it is finalised. */
  ghost predicate LogsFit(s: State) {
    && Distinct(s.granted) && Distinct(s.announced)
    && (forall j :: j in s.granted <==> j in s.rows && s.rows[j].state != Available)
    && (forall j :: j in s.announced <==> j in s.rows && s.rows[j].finalizedAt.Some?)
  }

  ghost predicate Inv(s: State) {
    RowsFit(s) && ClaimsFit(s) && LogsFit(s)
  }

  lemma DistinctJoin(p: seq<int>, q: seq<int>)
    requires Distinct(p) && Distinct(q) && forall j :: j in q ==> j !in p
    ensures Distinct(p + q)
  {
    forall m, n | 0 <= m < n < |p + q| ensures (p + q)[m] != (p + q)[n] {
      if n >= |p| {
        assert (p + q)[n] == q[n - |p|] && q[n - |p|] in q;
      }
    }
  }

  lemma StepKeepsRows(a: Action, s: State)
    requires Inv(s) && Enabled(true, a, s)
    ensures RowsFit(Apply(a, s))
  {
  }

  lemma StepKeepsClaims(a: Action, s: State)
    requires Inv(s) && Enabled(true, a, s)
    ensures ClaimsFit(Apply(a, s))
  {
    if a.Lock? {
      PickedAreFirst(s.rows, s.locked, a.queue, a.max);
    }
  }

  lemma StepKeepsLogs(a: Action, s: State)
    requires Inv(s) && Enabled(true, a, s)
    ensures LogsFit(Apply(a, s))
  {
    if a.Commit? {
      DistinctJoin(s.granted, a.order);
    } else if a.Report? {
      DistinctJoin(s.announced, [a.id]);
    }
  }

  ghost predicate Legal(faulty: bool, run: seq<Action>)
    decreases |run|, 0
  {
    run != [] ==>
      var before := run[..|run| - 1];
      Legal(faulty, before) && Enabled(faulty, run[|run| - 1], Outcome(faulty, before))
  }

  ghost function Outcome(faulty: bool, run: seq<Action>): State
    requires Legal(faulty, run)
    decreases |run|, 1
  {
    if run == [] then INIT
    else Apply(run[|run| - 1], Outcome(faulty, run[..|run| - 1]))
  }

  /** Over every run of overlapping claims, commits, aborts and reports, no job is granted or
      announced twice, and every row is in one of its four consistent forms. */
  lemma {:induction false} ClaimedAtMostOnce(faulty: bool, run: seq<Action>)
    requires Legal(faulty, run)
    ensures Inv(Outcome(faulty, run))
  {
    if run == [] {
    } else {
      var s, a := Outcome(faulty, run[..|run| - 1]), run[|run| - 1];
      ClaimedAtMostOnce(faulty, run[..|run| - 1]);
      StepKeepsRows(a, s);
      StepKeepsClaims(a, s);
      StepKeepsLogs(a, s);
    }
  }

  /** What can become of a row: it is claimed at most once, then reported on at most once, and
      after that it never changes. */
  ghost predicate Evolves(was: Row, now: Row) {
    && now.queue == was.queue && now.priority == was.priority && now.payload == was.payload
    && (was.state != Available ==> now.state != Available && now.attemptedBy == was.attemptedBy)
    && (was.finalizedAt.Some? ==> now == was)
  }

  /** The only two ways a row changes: the commit of a claim on its queue that holds it, and the
      report of its one attempter, which is stored. */
  lemma StepEvolves(a: Action, s: State, j: int)
    requires Inv(s) && Enabled(true, a, s) && j in s.rows
    ensures j in Apply(a, s).rows && Evolves(s.rows[j], Apply(a, s).rows[j])
    ensures Apply(a, s).rows[j] != s.rows[j] <==>
              (a.Commit? && j in s.claims[a.tx].ids) || (a.Report? && a.id == j)
    ensures var r, r' := s.rows[j], Apply(a, s).rows[j];
            r' != r ==>
              || (r.state == Available && a.Commit? && j in s.claims[a.tx].ids && s.claims[a.tx].queue == r.queue
                  && r' == r.(state := Running, attemptedAt := Some(a.now), attemptedBy := [s.claims[a.tx].actor]))
              || (r.state == Running && a.Report? && a.id == j && [a.actor] == r.attemptedBy
                  && r'.state == (if a.report.Answer? then Completed else Discarded)
                  && r'.finalizedAt == Some(a.now) && r'.payload == r.payload && r'.attemptedBy == r.attemptedBy
                  && (if a.report.Answer? then r'.result == Some(a.report.result) else r'.errors == Some(a.report.errors)))
  {
  }

  /** Only the one actor a job was granted to finalises it, and what it wrote stays for ever. */
  lemma {:induction false} RowsEvolve(faulty: bool, run: seq<Action>, cut: nat, j: int)
    requires Legal(faulty, run) && cut <= |run|
    ensures Legal(faulty, run[..cut])
    ensures j in Outcome(faulty, run[..cut]).rows ==>
              && j in Outcome(faulty, run).rows
              && Evolves(Outcome(faulty, run[..cut]).rows[j], Outcome(faulty, run).rows[j])
    decreases |run|
  {
    if cut == |run| {
      assert run[..cut] == run;
    } else {
      var before := run[..|run| - 1];
      assert before[..cut] == run[..cut];
      RowsEvolve(faulty, before, cut, j);
      ClaimedAtMostOnce(faulty, before);
      if j in Outcome(faulty, before).rows {
        StepEvolves(run[|run| - 1], Outcome(faulty, before), j);
      }
    }
  }

  /** Step `i` of the run inserted job `j` with this row's queue and payload. */
  ghost predicate InsertedAt(faulty: bool, run: seq<Action>, i: nat, j: int, r: Row) {
    && i < |run| && Legal(faulty, run[..i])
    && run[i] == Insert(r.queue, r.payload) && Outcome(faulty, run[..i]).nextId == j
  }

  /** Step `i` committed a claim on this row's queue that holds job `j`. */
  ghost predicate GrantedAt(faulty: bool, run: seq<Action>, i: nat, j: int, r: Row) {
    && i < |run| && Legal(faulty, run[..i]) && run[i].Commit?
    && var claims := Outcome(faulty, run[..i]).claims;
       && run[i].tx in claims
       && j in claims[run[i].tx].ids && j in run[i].order && claims[run[i].tx].queue == r.queue
       && r.attemptedBy == [claims[run[i].tx].actor] && r.attemptedAt == Some(run[i].now)
  }

  /** Step `i` reported what this row stores, and came from its attempter. */
  ghost predicate ReportedAt(run: seq<Action>, i: nat, j: int, r: Row) {
    && i < |run| && run[i].Report? && run[i].id == j
    && r.attemptedBy == [run[i].actor] && r.finalizedAt == Some(run[i].now)
    && match run[i].report
       case Answer(result) => r.state == Completed && r.result == Some(result) && r.errors == None
       case Failure(errors) => r.state == Discarded && r.errors == Some(errors) && r.result == None
  }

  ghost predicate Explained(faulty: bool, run: seq<Action>, j: int, r: Row) {
    && (exists i :: InsertedAt(faulty, run, i, j, r))
    && (r.state != Available ==> exists i :: GrantedAt(faulty, run, i, j, r))
    && (r.finalizedAt.Some? ==> exists i :: ReportedAt(run, i, j, r))
  }

  /** A longer run explains what the shorter one did. */
  lemma StillExplained(faulty: bool, before: seq<Action>, a: Action, j: int, r: Row)
    requires Explained(faulty, before, j, r)
    ensures Explained(faulty, before + [a], j, r)
  {
    var run := before + [a];
    assert forall i: nat :: i < |before| ==> run[..i] == before[..i] && run[i] == before[i];
    var i :| InsertedAt(faulty, before, i, j, r);
    assert InsertedAt(faulty, run, i, j, r);
    if r.state != Available {
      var k :| GrantedAt(faulty, before, k, j, r);
      assert GrantedAt(faulty, run, k, j, r);
    }
    if r.finalizedAt.Some? {
      var l :| ReportedAt(before, l, j, r);
      assert ReportedAt(run, l, j, r);
    }
  }

  /** Explanations of a row stay good for the next one: its last step adds what is new. */
  lemma ExplainsStep(faulty: bool, before: seq<Action>, a: Action, j: int)
    requires Legal(faulty, before) && Enabled(faulty, a, Outcome(faulty, before))
    requires j in Outcome(faulty, before).rows && Explained(faulty, before, j, Outcome(faulty, before).rows[j])
    ensures Explained(faulty, before + [a], j, Apply(a, Outcome(faulty, before)).rows[j])
  {
    var run, s := before + [a], Outcome(faulty, before);
    var r, r' := s.rows[j], Apply(a, s).rows[j];
    ClaimedAtMostOnce(faulty, before);
    StepEvolves(a, s, j);
    StillExplained(faulty, before, a, j, r);
    var n := |before|;
    assert run[..n] == before && run[n] == a;
    var i :| InsertedAt(faulty, run, i, j, r);
    assert InsertedAt(faulty, run, i, j, r');
    if r' == r {
    } else if a.Commit? {
      assert GrantedAt(faulty, run, n, j, r');
    } else {
      var k :| GrantedAt(faulty, run, k, j, r);
      assert GrantedAt(faulty, run, k, j, r');
      assert ReportedAt(run, n, j, r');
    }
  }

  lemma ExplainsNew(faulty: bool, before: seq<Action>, a: Action, j: int)
    requires Legal(faulty, before) && Enabled(faulty, a, Outcome(faulty, before))
    requires j !in Outcome(faulty, before).rows && j in Apply(a, Outcome(faulty, before)).rows
    ensures Explained(faulty, before + [a], j, Apply(a, Outcome(faulty, before)).rows[j])
  {
    var run := before + [a];
    assert run[..|before|] == before && run[|before|] == a && a.Insert?;
    assert InsertedAt(faulty, run, |before|, j, Apply(a, Outcome(faulty, before)).rows[j]);
  }

  /** Whatever a row says has happened in the run: it was inserted with its queue and payload, it
      was handed out by a claim on that queue, and its attempter reported what it stores. */
  lemma {:induction false} RowsAreExplained(faulty: bool, run: seq<Action>, j: int)
    requires Legal(faulty, run) && j in Outcome(faulty, run).rows
    ensures Explained(faulty, run, j, Outcome(faulty, run).rows[j])
  {
    if run == [] {
      assert false;
    } else {
      var before, a := run[..|run| - 1], run[|run| - 1];
      var s := Outcome(faulty, before);
      assert run == before + [a];
      if j in s.rows {
        RowsAreExplained(faulty, before, j);
        ExplainsStep(faulty, before, a, j);
      } else {
        ExplainsNew(faulty, before, a, j);
      }
    }
  }

  // ---- Claim order ----

  /** The job has been handed out, or a claim in progress holds it. */
  ghost predicate Gone(s: State, j: int) {
    j in s.rows && (s.rows[j].state != Available || j in s.locked)
  }

  /** Every claimed or locked job of a queue precedes every free one. */
  ghost predicate Ordered(s: State) {
    forall a, b :: Gone(s, a) && b in Free(s.rows, s.locked, s.rows[a].queue) ==> Before(s.rows, a, b)
  }

  lemma StepKeepsOrder(a: Action, s: State)
    requires Inv(s) && Ordered(s) && Enabled(false, a, s)
    ensures Ordered(Apply(a, s))
  {
    var s' := Apply(a, s);
    if a.Lock? {
      PickedAreFirst(s.rows, s.locked, a.queue, a.max);
    }
    forall x, y | Gone(s', x) && y in Free(s'.rows, s'.locked, s'.rows[x].queue)
      ensures Before(s'.rows, x, y)
    {
      if a.Insert? && y == s.nextId {
        assert x < s.nextId;
      } else {
        assert x in s.rows && s'.rows[x].queue == s.rows[x].queue && s'.rows[x].priority == s.rows[x].priority;
        assert y in Free(s.rows, s.locked, s.rows[x].queue);
        assert Gone(s, x) || (a.Lock? && x in Picked(s.rows, s.locked, a.queue, a.max));
      }
    }
  }

  lemma {:induction false} OrderHolds(run: seq<Action>)
    requires Legal(false, run)
    ensures Ordered(Outcome(false, run))
  {
    if run == [] {
    } else {
      var before := run[..|run| - 1];
      OrderHolds(before);
      ClaimedAtMostOnce(false, before);
      StepKeepsOrder(run[|run| - 1], Outcome(false, before));
    }
  }

  ghost predicate Reachable(faulty: bool, s: State) {
    exists run :: Legal(faulty, run) && Outcome(faulty, run) == s
  }

  lemma ReachStep(faulty: bool, s: State, a: Action)
    requires Reachable(faulty, s) && Enabled(faulty, a, s)
    ensures Reachable(faulty, Apply(a, s))
  {
    var run :| Legal(faulty, run) && Outcome(faulty, run) == s;
    var longer := run + [a];
    assert longer[..|longer| - 1] == run && longer[|longer| - 1] == a;
    assert Legal(faulty, longer) && Outcome(faulty, longer) == Apply(a, s);
  }

  /** One claim takes the only job it may: the first free one. */
  lemma LockOne(s: State, tx: int, actor: int, queue: int, j: int)
    requires tx !in s.claims && IsFirst(s.rows, j, Free(s.rows, s.locked, queue))
    ensures Apply(Lock(tx, actor, queue, 1), s)
         == s.(claims := s.claims[tx := Claim(actor, queue, {j})], locked := s.locked + {j})
  {
    PickedUnfold(s.rows, s.locked, queue, 1, j);
    assert Picked(s.rows, s.locked, queue, 1) == {j};
  }

  lemma TwoWaiting() returns (s: State)
    ensures Reachable(true, s) && s.rows.Keys == {1, 2} && s.rows[1] == s.rows[2]
    ensures s.rows[1].state == Available && s.rows[1].queue == 7
    ensures s.claims == map[] && s.locked == {}
  {
    assert Legal(true, []) && Outcome(true, []) == INIT;
    ReachStep(true, INIT, Insert(7, ""));
    var s1 := Apply(Insert(7, ""), INIT);
    ReachStep(true, s1, Insert(7, ""));
    s := Apply(Insert(7, ""), s1);
  }

  /** Two claims overlap and the first is rolled back: the older job is free again beside a
      younger one that is taken. */
  lemma AbortBreaksOrder() returns (s: State)
    ensures Reachable(true, s) && !Ordered(s)
  {
    var s2 := TwoWaiting();
    assert Free(s2.rows, {}, 7) == {1, 2} && IsFirst(s2.rows, 1, {1, 2});
    LockOne(s2, 1, 10, 7, 1);
    ReachStep(true, s2, Lock(1, 10, 7, 1));
    var s3 := Apply(Lock(1, 10, 7, 1), s2);
    assert Free(s3.rows, {1}, 7) == {2} && IsFirst(s3.rows, 2, {2});
    LockOne(s3, 2, 20, 7, 2);
    ReachStep(true, s3, Lock(2, 20, 7, 1));
    var s4 := Apply(Lock(2, 20, 7, 1), s3);
    ReachStep(true, s4, Abort(1));
    s := Apply(Abort(1), s4);
    assert s.locked == {2};
    assert Gone(s, 2) && 1 in Free(s.rows, s.locked, 7) && !Before(s.rows, 2, 1);
  }

  /** Jobs of a queue are handed out oldest first exactly as long as no claim is rolled back. */
  lemma ClaimOrder(faulty: bool)
    ensures (forall s :: Reachable(faulty, s) ==> Ordered(s)) <==> !faulty
  {
    if faulty {
      var s := AbortBreaksOrder();
    } else {
      forall s | Reachable(false, s) ensures Ordered(s) {
        var run :| Legal(false, run) && Outcome(false, run) == s;
        OrderHolds(run);
      }
    }
  }
}
