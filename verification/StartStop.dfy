/** The start/stop protocol of a background service, and the notifier's use of it: any number of
    threads start and stop, and a run loop lives from a successful start until it is stopped. */
module StartStop {
  import opened Common

  /** Every start that goes ahead makes one run, with a started and a stopped channel of its own. */
  type Run = int

  /** The fields of `BaseStartStop`, and what has happened to the runs' contexts and channels.
      `onceDone` are the runs whose started function has fired. */
  datatype Base = Base(
    locked: bool,
    started: Option<Run>,
    stopped: Option<Run>,
    cancelFunc: Option<Run>,
    next: Run,
    cancelled: set<Run>,
    onceDone: set<Run>,
    startedClosed: set<Run>,
    stoppedClosed: set<Run>)

  function AfterStartInit(b: Base): Base {
    if b.started.Some? then b
    else b.(started := Some(b.next), stopped := Some(b.next), cancelFunc := Some(b.next), next := b.next + 1)
  }

  function AfterStopInit(b: Base): Base {
    if b.stopped.None? then b
    else b.(locked := true,
            cancelled := b.cancelled + if b.cancelFunc.Some? then {b.cancelFunc.value} else {})
  }

  function AfterFinalize(b: Base, didStop: bool): Base {
    if didStop then b.(locked := false, started := None, stopped := None) else b.(locked := false)
  }

  /** Closing a nil channel or a closed one panics: `None`. The channel closed is the one in the
      field when the function runs. */
  function AfterStarted(b: Base, r: Run): Option<Base> {
    if r in b.onceDone then Some(b)
    else if b.started.None? || b.started.value in b.startedClosed then None
    else Some(b.(onceDone := b.onceDone + {r}, startedClosed := b.startedClosed + {b.started.value}))
  }

  function AfterStopped(b: Base, r: Run): Option<Base> {
    var c := AfterStarted(b, r);
    if c.None? || c.value.stopped.None? || c.value.stopped.value in c.value.stoppedClosed then None
    else Some(c.value.(stoppedClosed := c.value.stoppedClosed + {c.value.stopped.value}))
  }

  // ---- The object ----

  /** Locking a locked mutex blocks, so the methods that lock require it to be free. */
  class BaseStartStop {
    var locked: bool
    var started: Option<Run>
    var stopped: Option<Run>
    var cancelFunc: Option<Run>
    var next: Run
    var cancelled: set<Run>
    var onceDone: set<Run>
    var startedClosed: set<Run>
    var stoppedClosed: set<Run>

    ghost function Fields(): Base
      reads this
    {
      Base(locked, started, stopped, cancelFunc, next, cancelled, onceDone, startedClosed, stoppedClosed)
    }

    constructor ()
      ensures Fields() == NEW
    {
      locked, started, stopped, cancelFunc, next := false, None, None, None, 0;
      cancelled, onceDone, startedClosed, stoppedClosed := {}, {}, {}, {};
    }

    method StartInit() returns (shouldStart: Option<Run>)
      requires !locked
      modifies this
      ensures Fields() == AfterStartInit(old(Fields()))
      ensures shouldStart == if old(started).Some? then None else Some(old(next))
    {
      locked := true;
      if started.Some? {
        locked := false;
        return None;
      }
      started := Some(next);
      stopped := Some(next);
      cancelFunc := Some(next);
      next := next + 1;
      locked := false;
      return Some(next - 1);
    }

    method StopInit() returns (shouldStop: Option<Run>)
      requires !locked
      modifies this
      ensures Fields() == AfterStopInit(old(Fields())) && shouldStop == stopped
    {
      locked := true;
      if stopped.None? {
        locked := false;
        return None;
      }
      if cancelFunc.Some? {
        cancelled := cancelled + {cancelFunc.value};
      }
      return stopped;
    }

    method FinalizeStop(didStop: bool)
      requires locked
      modifies this
      ensures Fields() == AfterFinalize(old(Fields()), didStop)
    {
      if didStop {
        started, stopped := None, None;
      }
      locked := false;
    }

    /** The two functions StartInit hands out; they do not take the lock. */
    method CloseStartedOnce(r: Run) returns (panicked: bool)
      modifies this
      ensures AfterStarted(old(Fields()), r) == if panicked then None else Some(Fields())
    {
      if r in onceDone {
        return false;
      }
      if started.None? || started.value in startedClosed {
        return true;
      }
      onceDone := onceDone + {r};
      startedClosed := startedClosed + {started.value};
      return false;
    }

    method CloseStopped(r: Run) returns (panicked: bool)
      modifies this
      ensures AfterStopped(old(Fields()), r) == if panicked then None else Some(Fields())
    {
      panicked := CloseStartedOnce(r);
      if panicked || stopped.None? || stopped.value in stoppedClosed {
        return true;
      }
      stoppedClosed := stoppedClosed + {stopped.value};
    }
  }

  // ---- Threads and runs ----

  type Thread = int

  /** A thread in the middle of Start is connecting; one in the middle of Stop holds the lock and
      waits for the run's stopped channel. */
  datatype Pc = Starting(run: Run) | Stopping(run: Run)

  datatype Status = Connecting(starter: Thread) | Launched | Looping | Ended

  datatype State = State(base: Base, threads: map<Thread, Pc>, runs: map<Run, Status>, panicked: bool)

  const NEW := Base(false, None, None, None, 0, {}, {}, {}, {})
  const INIT := State(NEW, map[], map[], false)

  datatype Action =
    | Start(thread: Thread)
    | ConnectFails(thread: Thread)
    | Launch(thread: Thread)
    | Begin(run: Run)
    | CancelParent(run: Run)
    | LoopEnds(run: Run)
    | Stop(thread: Thread)
    | StopReturns(thread: Thread)

  ghost predicate HasStatus(s: State, r: Run, status: Status) {
    r in s.runs && s.runs[r] == status
  }

  ghost predicate Enabled(a: Action, s: State) {
    !s.panicked &&
    match a
    case Start(th) => th !in s.threads && !s.base.locked
    case ConnectFails(th) => th in s.threads && s.threads[th].Starting?
    case Launch(th) => th in s.threads && s.threads[th].Starting?
    case Begin(r) => HasStatus(s, r, Launched)
    case CancelParent(r) => r in s.runs
    case LoopEnds(r) => HasStatus(s, r, Looping) && r in s.base.cancelled
    case Stop(th) => th !in s.threads && !s.base.locked
    case StopReturns(th) =>
      th in s.threads && s.threads[th].Stopping? && s.threads[th].run in s.base.stoppedClosed
  }

  ghost function WithBase(s: State, b: Option<Base>): State {
    if b.None? then s.(panicked := true) else s.(base := b.value)
  }

  ghost function Apply(a: Action, s: State): State
    requires Enabled(a, s)
  {
    match a
    case Start(th) =>
      var b := AfterStartInit(s.base);
      if s.base.started.Some? then s.(base := b)
      else s.(base := b, threads := s.threads[th := Starting(s.base.next)],
              runs := s.runs[s.base.next := Connecting(th)])
    case ConnectFails(th) =>
      var r := s.threads[th].run;
      WithBase(s.(threads := s.threads - {th}, runs := s.runs[r := Ended]), AfterStopped(s.base, r))
    case Launch(th) =>
      s.(threads := s.threads - {th}, runs := s.runs[s.threads[th].run := Launched])
    case Begin(r) => WithBase(s.(runs := s.runs[r := Looping]), AfterStarted(s.base, r))
    case CancelParent(r) => s.(base := s.base.(cancelled := s.base.cancelled + {r}))
    case LoopEnds(r) => WithBase(s.(runs := s.runs[r := Ended]), AfterStopped(s.base, r))
    case Stop(th) =>
      var b := AfterStopInit(s.base);
      if s.base.stopped.None? then s.(base := b)
      else s.(base := b, threads := s.threads[th := Stopping(s.base.stopped.value)])
    case StopReturns(th) =>
      s.(base := AfterFinalize(s.base, true), threads := s.threads - {th})
  }

  // ---- The invariant ----

  ghost predicate Live(s: State, r: Run) {
    r in s.runs && s.runs[r] != Ended
  }

  /** The fields all speak of one run, and a live run is that one. */
  ghost predicate FieldsFit(s: State) {
    && s.base.started == s.base.stopped
    && (s.base.stopped.Some? ==> s.base.stopped.value in s.runs && s.base.cancelFunc == s.base.stopped)
    && (forall r :: r in s.runs ==> r < s.base.next)
    && (forall r :: Live(s, r) ==> s.base.stopped == Some(r))
  }

  ghost predicate ChannelsFit(s: State) {
    && (forall r :: r in s.base.stoppedClosed <==> HasStatus(s, r, Ended))
    && (forall r :: r in s.base.onceDone ==> r in s.runs && s.runs[r] in {Looping, Ended})
    && (forall r :: HasStatus(s, r, Looping) ==> r in s.base.onceDone)
    && s.base.onceDone == s.base.startedClosed
  }

  ghost predicate ThreadsFit(s: State) {
    && (forall th :: th in s.threads && s.threads[th].Starting? ==>
          HasStatus(s, s.threads[th].run, Connecting(th)))
    && (forall r :: r in s.runs && s.runs[r].Connecting? ==>
          s.runs[r].starter in s.threads && s.threads[s.runs[r].starter] == Starting(r))
    && (forall th :: th in s.threads && s.threads[th].Stopping? ==>
          s.base.locked && s.base.stopped == Some(s.threads[th].run) && s.threads[th].run in s.base.cancelled)
    && (forall th, ti :: th in s.threads && ti in s.threads && s.threads[th].Stopping? && s.threads[ti].Stopping?
          ==> th == ti)
    && (s.base.locked ==> exists th :: th in s.threads && s.threads[th].Stopping?)
  }

  ghost predicate Inv(s: State) {
    !s.panicked && FieldsFit(s) && ChannelsFit(s) && ThreadsFit(s)
  }

  lemma StartKeepsInv(s: State, th: Thread)
    requires Inv(s) && Enabled(Start(th), s)
    ensures Inv(Apply(Start(th), s))
  {
    var s' := Apply(Start(th), s);
    assert forall r :: Live(s, r) ==> s.base.stopped == Some(r);
    assert s.base.next !in s.runs;
    assert forall r :: r in s.runs ==> s'.runs[r] == s.runs[r];
  }

  /** Ending a live run closes its own channels, once. */
  lemma EndKeepsFit(s: State, r: Run)
    requires Inv(s) && Live(s, r)
    ensures AfterStopped(s.base, r).Some?
    ensures var b := AfterStopped(s.base, r).value;
            && b == s.base.(onceDone := s.base.onceDone + {r}, startedClosed := s.base.onceDone + {r},
                            stoppedClosed := s.base.stoppedClosed + {r})
            && var s' := s.(base := b, runs := s.runs[r := Ended]);
               FieldsFit(s') && ChannelsFit(s')
  {
    assert s.base.stopped == Some(r);
    assert r !in s.base.stoppedClosed;
    var s' := s.(base := AfterStopped(s.base, r).value, runs := s.runs[r := Ended]);
    assert forall q :: Live(s', q) ==> Live(s, q);
    assert r in s.base.onceDone ==> s.base.onceDone == s.base.onceDone + {r};
  }

  lemma ConnectKeepsInv(a: Action, s: State)
    requires Inv(s) && Enabled(a, s) && (a.ConnectFails? || a.Launch?)
    ensures Inv(Apply(a, s))
  {
    var r := s.threads[a.thread].run;
    assert Live(s, r);
    var s' := Apply(a, s);
    if a.ConnectFails? {
      EndKeepsFit(s, r);
    } else {
      assert forall q :: Live(s', q) ==> Live(s, q);
    }
    assert s.base.locked ==> exists th :: th in s'.threads && s'.threads[th].Stopping? by {
      if s.base.locked {
        var th :| th in s.threads && s.threads[th].Stopping?;
        assert th in s'.threads;
      }
    }
  }

  lemma LoopKeepsInv(a: Action, s: State)
    requires Inv(s) && Enabled(a, s) && (a.Begin? || a.LoopEnds?)
    ensures Inv(Apply(a, s))
  {
    var s' := Apply(a, s);
    assert Live(s, a.run);
    if a.LoopEnds? {
      EndKeepsFit(s, a.run);
    } else {
      assert forall q :: Live(s', q) ==> Live(s, q);
    }
  }

  lemma StopKeepsInv(a: Action, s: State)
    requires Inv(s) && Enabled(a, s) && (a.Stop? || a.StopReturns? || a.CancelParent?)
    ensures Inv(Apply(a, s))
  {
    var s' := Apply(a, s);
    assert forall q :: Live(s', q) <==> Live(s, q);
    if a.Stop? && s.base.stopped.Some? {
      assert a.thread in s'.threads && s'.threads[a.thread].Stopping?;
    } else if a.StopReturns? {
      assert !Live(s, s.threads[a.thread].run);
    }
  }

  lemma StepKeepsInv(a: Action, s: State)
    requires Inv(s) && Enabled(a, s)
    ensures Inv(Apply(a, s))
  {
    match a {
      case Start(th) => StartKeepsInv(s, th);
      case ConnectFails(_) => ConnectKeepsInv(a, s);
      case Launch(_) => ConnectKeepsInv(a, s);
      case Begin(_) => LoopKeepsInv(a, s);
      case LoopEnds(_) => LoopKeepsInv(a, s);
      case _ => StopKeepsInv(a, s);
    }
  }

  // ---- Whole runs of the system ----

  ghost predicate Legal(trace: seq<Action>)
    decreases |trace|, 0
  {
    trace != [] ==>
      Legal(trace[..|trace| - 1]) && Enabled(trace[|trace| - 1], Outcome(trace[..|trace| - 1]))
  }

  ghost function Outcome(trace: seq<Action>): State
    requires Legal(trace)
    decreases |trace|, 1
  {
    if trace == [] then INIT else Apply(trace[|trace| - 1], Outcome(trace[..|trace| - 1]))
  }

  lemma {:induction false} InvHolds(trace: seq<Action>)
    requires Legal(trace)
    ensures Inv(Outcome(trace))
  {
    if trace == [] {
    } else {
      InvHolds(trace[..|trace| - 1]);
      StepKeepsInv(trace[|trace| - 1], Outcome(trace[..|trace| - 1]));
    }
  }

  /** However the threads interleave, at most one run is alive, from its first attempt to connect
      to its end, and no channel is closed twice or before it exists. */
  lemma AtMostOneRun(trace: seq<Action>, r: Run, q: Run)
    requires Legal(trace)
    ensures !Outcome(trace).panicked
    ensures Live(Outcome(trace), r) && Live(Outcome(trace), q) ==> r == q
  {
    InvHolds(trace);
  }

  /** A Stop that found a run returns only once no run is alive, and leaves the service ready:
      with no call in between, the next Start makes a new run. */
  lemma StopReturnsAfterTheEnd(trace: seq<Action>, th: Thread, next: Thread)
    requires Legal(trace) && Enabled(StopReturns(th), Outcome(trace))
    ensures var s := Outcome(trace);
            && HasStatus(s, s.threads[th].run, Ended)
            && (forall r :: !Live(s, r))
            && var s' := Apply(StopReturns(th), s);
               && s'.base.started.None? && !s'.base.locked
               && (next !in s'.threads ==>
                     Enabled(Start(next), s') && Live(Apply(Start(next), s'), s'.base.next))
  {
    InvHolds(trace);
  }

  // ---- A Stop that waits is never stuck ----

  function Rank(status: Status): nat {
    match status
    case Connecting(_) => 3
    case Launched => 2
    case Looping => 1
    case Ended => 0
  }

  /** The step that brings a waiting Stop closer to its return. */
  ghost function NextStep(s: State, th: Thread): Action
    requires Inv(s) && th in s.threads && s.threads[th].Stopping?
  {
    var r := s.threads[th].run;
    match s.runs[r]
    case Connecting(starter) => ConnectFails(starter)
    case Launched => Begin(r)
    case Looping => LoopEnds(r)
    case Ended => StopReturns(th)
  }

  lemma StepForward(s: State, th: Thread)
    requires Inv(s) && th in s.threads && s.threads[th].Stopping?
    ensures var r := s.threads[th].run;
            && Enabled(NextStep(s, th), s)
            && (s.runs[r] == Ended <==> NextStep(s, th) == StopReturns(th))
            && (s.runs[r] != Ended ==> Rank(Apply(NextStep(s, th), s).runs[r]) < Rank(s.runs[r]))
  {
    var r := s.threads[th].run;
    assert s.runs[r] != Ended ==> Live(s, r);
  }

  lemma NoStepBack(s: State, a: Action, r: Run)
    requires Inv(s) && Enabled(a, s) && r in s.runs
    ensures r in Apply(a, s).runs && Rank(Apply(a, s).runs[r]) <= Rank(s.runs[r])
  {
  }

  /** While a Stop waits there is always a step that moves its run on or lets it return, and no
      step of anybody moves the run back. */
  lemma WaitingStopProgresses(trace: seq<Action>, th: Thread, a: Action)
    requires Legal(trace)
    requires th in Outcome(trace).threads && Outcome(trace).threads[th].Stopping?
    ensures Inv(Outcome(trace))
    ensures var s := Outcome(trace);
            var r := s.threads[th].run;
            && Enabled(NextStep(s, th), s)
            && (s.runs[r] == Ended <==> NextStep(s, th) == StopReturns(th))
            && (s.runs[r] != Ended ==> Rank(Apply(NextStep(s, th), s).runs[r]) < Rank(s.runs[r]))
            && (Enabled(a, s) ==> r in Apply(a, s).runs && Rank(Apply(a, s).runs[r]) <= Rank(s.runs[r]))
  {
    InvHolds(trace);
    var s := Outcome(trace);
    StepForward(s, th);
    if Enabled(a, s) {
      NoStepBack(s, a, s.threads[th].run);
    }
  }

  // ---- A run that ended by itself ----

  /** The run failed to connect, or its parent context was cancelled, and nobody has called Stop. */
  ghost predicate DeadUnstopped(s: State, r: Run) {
    s.base.started == Some(r) && HasStatus(s, r, Ended) && !s.base.locked
  }

  /** A failed connect leaves the service dead, unless a Stop is waiting for it already. */
  lemma FailedConnectIsDead(s: State, th: Thread)
    requires Inv(s) && Enabled(ConnectFails(th), s)
    ensures DeadUnstopped(Apply(ConnectFails(th), s), s.threads[th].run) <==> !s.base.locked
  {
    EndKeepsFit(s, s.threads[th].run);
  }

  /** A Start makes a run exactly when none is recorded; otherwise it changes nothing. */
  lemma StartMakesRun(s: State, th: Thread)
    requires Inv(s) && Enabled(Start(th), s)
    ensures (exists r :: r !in s.runs && Live(Apply(Start(th), s), r)) <==> s.base.started.None?
    ensures s.base.started.Some? ==> Apply(Start(th), s) == s
  {
    if s.base.started.None? {
      assert s.base.next !in s.runs && Live(Apply(Start(th), s), s.base.next);
    }
  }

  lemma Extend(trace: seq<Action>, a: Action)
    requires Legal(trace) && Enabled(a, Outcome(trace))
    ensures Legal(trace + [a]) && Outcome(trace + [a]) == Apply(a, Outcome(trace))
  {
    var longer := trace + [a];
    assert longer[..|longer| - 1] == trace && longer[|longer| - 1] == a;
  }

  /** Two steps reach such a state: a Start, and its connect failing. */
  lemma DeadIsReachable() returns (trace: seq<Action>)
    ensures Legal(trace) && DeadUnstopped(Outcome(trace), 0)
  {
    trace := [];
    Extend(trace, Start(1));
    trace := trace + [Start(1)];
    InvHolds(trace);
    FailedConnectIsDead(Outcome(trace), 1);
    Extend(trace, ConnectFails(1));
    trace := trace + [ConnectFails(1)];
  }

  /** Connecting threads and run loops belong to a live run. */
  lemma ActsForLive(a: Action, s: State)
    requires Inv(s) && Enabled(a, s)
    ensures a.ConnectFails? || a.Launch? ==> Live(s, s.threads[a.thread].run)
    ensures a.Begin? || a.LoopEnds? ==> Live(s, a.run)
  {
  }

  lemma DeadStaysDead(a: Action, s: State, r: Run)
    requires Inv(s) && Enabled(a, s) && DeadUnstopped(s, r) && !a.Stop?
    ensures DeadUnstopped(Apply(a, s), r) && Apply(a, s).runs == s.runs
    ensures forall q :: !Live(Apply(a, s), q)
  {
    assert forall q :: !Live(s, q);
    ActsForLive(a, s);
    assert a.Start? || a.CancelParent?;
    forall q ensures !Live(Apply(a, s), q) {
      assert !Live(s, q);
    }
  }

  /** Until somebody calls Stop, every later Start returns without error and starts nothing. */
  lemma {:induction false} DeadUntilStopped(trace: seq<Action>, cut: nat, r: Run)
    requires Legal(trace) && cut <= |trace|
    requires forall i :: cut <= i < |trace| ==> !trace[i].Stop?
    ensures Legal(trace[..cut])
    ensures DeadUnstopped(Outcome(trace[..cut]), r) ==>
              && DeadUnstopped(Outcome(trace), r)
              && Outcome(trace).runs == Outcome(trace[..cut]).runs
    decreases |trace|
  {
    if cut == |trace| {
      assert trace[..cut] == trace;
    } else {
      var before := trace[..|trace| - 1];
      assert before[..cut] == trace[..cut];
      assert forall i :: cut <= i < |before| ==> before[i] == trace[i];
      DeadUntilStopped(before, cut, r);
      if DeadUnstopped(Outcome(trace[..cut]), r) {
        InvHolds(before);
        DeadStaysDead(trace[|trace| - 1], Outcome(before), r);
      }
    }
  }

  /** A Stop clears it: with nobody else in the way the service can start again. */
  lemma StopRevives(trace: seq<Action>, r: Run, stopper: Thread, starter: Thread)
    requires Legal(trace) && DeadUnstopped(Outcome(trace), r)
    requires stopper !in Outcome(trace).threads && starter !in Outcome(trace).threads && !Outcome(trace).panicked
    ensures var s := Outcome(trace);
            && Enabled(Stop(stopper), s)
            && var s1 := Apply(Stop(stopper), s);
            && Enabled(StopReturns(stopper), s1)
            && var s2 := Apply(StopReturns(stopper), s1);
            && Enabled(Start(starter), s2)
            && Live(Apply(Start(starter), s2), s2.base.next)
  {
    InvHolds(trace);
  }
}
