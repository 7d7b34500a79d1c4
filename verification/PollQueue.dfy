/** The long-polling protocol: jobs are inserted and announced, pollers query, wait on their
    queue's channel and query again. One server process is modelled in full; the other
    processes sharing the table appear as jobs that vanish. */
module PollQueue {
  import opened Common
  import D = Dispatcher

  /** A queue id in the form used as notification payload and channel id. */
  type Queue = string

  /** A row of the invocations table: its queue, and whether it is still available. */
  datatype Job = Job(queue: Queue, available: bool)

  /** A poller is about to query, on its way into the select after an empty query, blocked in
      the select, or has answered. */
  datatype Phase = Checking | Entering | Blocked | Returned

  datatype Poller = Poller(queue: Queue, phase: Phase)

  /** The dispatcher's payload carries nothing. */
  datatype InvokeRequest = InvokeRequest

  /** `unsent` holds inserted jobs whose notification has not been issued yet, `inFlight` the
      notifications not yet handed to the dispatcher. */
  datatype State = State(
    jobs: map<int, Job>,
    unsent: multiset<Queue>,
    inFlight: multiset<Queue>,
    channels: D.Channels<InvokeRequest>,
    pollers: map<int, Poller>)

  const INIT := State(map[], multiset{}, multiset{}, D.Channels(map[], false), map[])

  datatype Action =
    | Insert(job: int, queue: Queue)
    | Notify(queue: Queue)
    | Deliver(queue: Queue, receiver: Option<int>)
    | Arrive(poller: int, queue: Queue)
    | Claim(poller: int, job: int)
    | FindNothing(poller: int, expired: bool)
    | Take(poller: int)
    | Block(poller: int)
    | TimeOut(poller: int)
    | ClaimElsewhere(job: int)

  ghost function Open(jobs: map<int, Job>, q: Queue): set<int> {
    set j | j in jobs && jobs[j] == Job(q, true)
  }

  ghost function Among(pollers: map<int, Poller>, x: Poller): set<int> {
    set p | p in pollers && pollers[p] == x
  }

  ghost function Free(s: State, q: Queue): set<int> {
    Open(s.jobs, q)
  }

  ghost function At(s: State, q: Queue, phase: Phase): set<int> {
    Among(s.pollers, Poller(q, phase))
  }

  ghost function Tokens(s: State, q: Queue): nat {
    if q in s.channels.buffers then |s.channels.buffers[q]| else 0
  }

  ghost predicate InPhase(s: State, p: int, phase: Phase) {
    p in s.pollers && s.pollers[p].phase == phase
  }

  /** After an empty query, and not yet answered. */
  ghost function Parked(s: State, q: Queue): set<int> {
    At(s, q, Entering) + At(s, q, Blocked)
  }

  /** When an action can happen, with at most `limit` pollers of a queue at a time on their way
      into the select. A query that finds nothing sees the whole table; the poller then waits while
      time is left. A send goes straight to a poller blocked in the select, if there is one, and
      a poller blocks only on an empty buffer. The timer may fire in either phase. */
  ghost predicate Enabled(limit: nat, a: Action, s: State) {
    match a
    case Insert(j, _) => j !in s.jobs
    case Notify(q) => q in s.unsent
    case Deliver(q, receiver) =>
      && q in s.inFlight
      && if receiver.None? then At(s, q, Blocked) == {} else receiver.value in At(s, q, Blocked)
    case Arrive(p, _) => p !in s.pollers
    case Claim(p, j) => InPhase(s, p, Checking) && j in Free(s, s.pollers[p].queue)
    case FindNothing(p, expired) =>
      && InPhase(s, p, Checking) && Free(s, s.pollers[p].queue) == {}
      && (!expired ==> |At(s, s.pollers[p].queue, Entering)| < limit)
    case Take(p) => InPhase(s, p, Entering) && Tokens(s, s.pollers[p].queue) > 0
    case Block(p) => InPhase(s, p, Entering) && Tokens(s, s.pollers[p].queue) == 0
    case TimeOut(p) => InPhase(s, p, Entering) || InPhase(s, p, Blocked)
    case ClaimElsewhere(j) => j in s.jobs && s.jobs[j].available
  }

  ghost function Moved(s: State, p: int, phase: Phase): State
    requires p in s.pollers
  {
    s.(pollers := s.pollers[p := s.pollers[p].(phase := phase)])
  }

  ghost function Took(s: State, j: int): State
    requires j in s.jobs
  {
    s.(jobs := s.jobs[j := s.jobs[j].(available := false)])
  }

  ghost function Apply(limit: nat, a: Action, s: State): State
    requires Enabled(limit, a, s)
  {
    match a
    case Insert(j, q) => s.(jobs := s.jobs[j := Job(q, true)], unsent := s.unsent + multiset{q})
    case Notify(q) => s.(unsent := s.unsent - multiset{q}, inFlight := s.inFlight + multiset{q})
    case Deliver(q, receiver) =>
      var t := s.(inFlight := s.inFlight - multiset{q});
      if receiver.Some? then Moved(t, receiver.value, Checking)
      else t.(channels := D.Dispatched(s.channels, q, InvokeRequest))
    case Arrive(p, q) =>
      s.(channels := D.Listened(s.channels, q), pollers := s.pollers[p := Poller(q, Checking)])
    case Claim(p, j) => Moved(Took(s, j), p, Returned)
    case FindNothing(p, expired) => Moved(s, p, if expired then Returned else Entering)
    case Take(p) => Moved(s.(channels := D.Taken(s.channels, s.pollers[p].queue)), p, Checking)
    case Block(p) => Moved(s, p, Blocked)
    case TimeOut(p) => Moved(s, p, Checking)
    case ClaimElsewhere(j) => Took(s, j)
  }

  ghost predicate Legal(limit: nat, run: seq<Action>)
    decreases |run|, 0
  {
    run != [] ==>
      var before := run[..|run| - 1];
      Legal(limit, before) && Enabled(limit, run[|run| - 1], Outcome(limit, before))
  }

  ghost function Outcome(limit: nat, run: seq<Action>): State
    requires Legal(limit, run)
    decreases |run|, 1
  {
    if run == [] then INIT
    else Apply(limit, run[|run| - 1], Outcome(limit, run[..|run| - 1]))
  }

  /** Something will make a poller of `q` look at the table again. */
  ghost predicate WakeUpPending(s: State, q: Queue) {
    Tokens(s, q) > 0 || s.inFlight[q] > 0 || s.unsent[q] > 0 || At(s, q, Checking) != {}
  }

  /** A waiting poller and an available job of its queue are never left facing each other. */
  ghost predicate NobodyForgotten(s: State) {
    forall q :: Parked(s, q) != {} && Free(s, q) != {} ==> WakeUpPending(s, q)
  }

  /** Handing a payload to a blocked poller is a send and a receive on its empty channel. */
  lemma HandOffIsSendAndReceive(c: D.Channels<InvokeRequest>, q: Queue)
    requires q in c.buffers && c.buffers[q] == [] && !c.closed
    ensures var sent := D.Dispatched(c, q, InvokeRequest);
            q in sent.buffers && sent.buffers[q] != [] && D.Taken(sent, q) == c
  {
    assert D.Taken(D.Dispatched(c, q, InvokeRequest), q).buffers == c.buffers;
  }

  // ---- Six counts per queue ----

  /** Available jobs, buffered tokens, notifications still to come, and pollers by phase. */
  datatype Counts = Counts(free: nat, tokens: nat, flying: nat, checking: nat, entering: nat, blocked: nat)

  ghost function CountsOf(s: State, q: Queue): Counts {
    Counts(|Free(s, q)|, Tokens(s, q), s.unsent[q] + s.inFlight[q],
           |At(s, q, Checking)|, |At(s, q, Entering)|, |At(s, q, Blocked)|)
  }

  function One(b: bool): nat {
    if b then 1 else 0
  }

  /** Setting one poller's entry, new or not, shifts at most that poller. */
  lemma PollerSet(pollers: map<int, Poller>, p: int, r: Poller, x: Poller)
    ensures |Among(pollers[p := r], x)|
         == |Among(pollers, x)| + One(r == x) - One(p in pollers && pollers[p] == x)
  {
    var rest := Among(pollers, x) - {p};
    assert Among(pollers, x) == if p in pollers && pollers[p] == x then rest + {p} else rest;
    assert Among(pollers[p := r], x) == if r == x then rest + {p} else rest;
  }

  lemma TookCounts(s: State, j: int, q: Queue)
    requires j in s.jobs && s.jobs[j].available
    ensures var c := CountsOf(s, q);
            s.jobs[j].queue == q ==> c.free > 0 && CountsOf(Took(s, j), q) == c.(free := c.free - 1)
    ensures s.jobs[j].queue != q ==> CountsOf(Took(s, j), q) == CountsOf(s, q)
  {
    var t := Took(s, j);
    assert t.pollers == s.pollers;
    if s.jobs[j].queue == q {
      assert j in Free(s, q) && Free(t, q) == Free(s, q) - {j};
    } else {
      assert Free(t, q) == Free(s, q);
    }
  }

  lemma InsertCounts(limit: nat, s: State, j: int, q0: Queue, q: Queue)
    requires Enabled(limit, Insert(j, q0), s)
    ensures var c := CountsOf(s, q);
            CountsOf(Apply(limit, Insert(j, q0), s), q)
            == if q == q0 then c.(free := c.free + 1, flying := c.flying + 1) else c
  {
    var t := Apply(limit, Insert(j, q0), s);
    assert t.pollers == s.pollers;
    if q == q0 {
      assert Free(t, q) == Free(s, q) + {j} && j !in Free(s, q);
    } else {
      assert Free(t, q) == Free(s, q);
    }
  }

  lemma NotifyCounts(limit: nat, s: State, q0: Queue, q: Queue)
    requires Enabled(limit, Notify(q0), s)
    ensures CountsOf(Apply(limit, Notify(q0), s), q) == CountsOf(s, q)
  {
    var t := Apply(limit, Notify(q0), s);
    assert t.jobs == s.jobs && t.pollers == s.pollers;
  }

  lemma DeliverCounts(limit: nat, s: State, q0: Queue, q: Queue)
    requires Enabled(limit, Deliver(q0, None), s) && !s.channels.closed
    ensures var c := CountsOf(s, q);
            CountsOf(Apply(limit, Deliver(q0, None), s), q)
            == if q != q0 then c
               else if q in s.channels.buffers && c.tokens < D.CAPACITY
               then c.(flying := c.flying - 1, tokens := c.tokens + 1)
               else c.(flying := c.flying - 1)
  {
    var t := Apply(limit, Deliver(q0, None), s);
    assert t.jobs == s.jobs && t.pollers == s.pollers;
  }

  lemma HandOffCounts(limit: nat, s: State, q0: Queue, p: int, q: Queue)
    requires Enabled(limit, Deliver(q0, Some(p)), s)
    ensures var c := CountsOf(s, q);
            if q != q0 then CountsOf(Apply(limit, Deliver(q0, Some(p)), s), q) == c
            else && c.blocked > 0
                 && CountsOf(Apply(limit, Deliver(q0, Some(p)), s), q)
                 == c.(flying := c.flying - 1, blocked := c.blocked - 1, checking := c.checking + 1)
  {
    var t := s.(inFlight := s.inFlight - multiset{q0});
    assert t.jobs == s.jobs && t.pollers == s.pollers;
    MovedCounts(t, p, Checking, q);
  }

  lemma ListenKeepsTokens(s: State, t: State, q0: Queue, q: Queue)
    requires t.channels == D.Listened(s.channels, q0)
    ensures Tokens(t, q) == Tokens(s, q)
  {
    if q in s.channels.buffers {
      assert t.channels.buffers[q] == s.channels.buffers[q];
    }
  }

  lemma ArriveCounts(limit: nat, s: State, p: int, q0: Queue, q: Queue)
    requires Enabled(limit, Arrive(p, q0), s)
    ensures var c := CountsOf(s, q);
            CountsOf(Apply(limit, Arrive(p, q0), s), q) == if q == q0 then c.(checking := c.checking + 1) else c
  {
    var t := Apply(limit, Arrive(p, q0), s);
    ListenKeepsTokens(s, t, q0, q);
    PollerSet(s.pollers, p, Poller(q0, Checking), Poller(q, Checking));
    PollerSet(s.pollers, p, Poller(q0, Checking), Poller(q, Entering));
    PollerSet(s.pollers, p, Poller(q0, Checking), Poller(q, Blocked));
    assert t.jobs == s.jobs;
  }

  /** A move between phases shifts one poller of one queue and nothing else. */
  lemma MovedCounts(s: State, p: int, phase: Phase, q: Queue)
    requires p in s.pollers && s.pollers[p].phase != phase
    ensures var c, d := CountsOf(s, q), CountsOf(Moved(s, p, phase), q);
            var was := s.pollers[p].phase;
            && d.free == c.free && d.tokens == c.tokens && d.flying == c.flying
            && (s.pollers[p].queue != q ==> d == c)
            && (s.pollers[p].queue == q ==>
                  && d.checking == c.checking + One(phase == Checking) - One(was == Checking)
                  && d.entering == c.entering + One(phase == Entering) - One(was == Entering)
                  && d.blocked == c.blocked + One(phase == Blocked) - One(was == Blocked))
  {
    var r := s.pollers[p].(phase := phase);
    PollerSet(s.pollers, p, r, Poller(q, Checking));
    PollerSet(s.pollers, p, r, Poller(q, Entering));
    PollerSet(s.pollers, p, r, Poller(q, Blocked));
  }

  lemma ClaimCounts(limit: nat, s: State, p: int, j: int, q: Queue)
    requires Enabled(limit, Claim(p, j), s)
    ensures var c := CountsOf(s, q);
            if q != s.pollers[p].queue then CountsOf(Apply(limit, Claim(p, j), s), q) == c
            else && c.free > 0 && c.checking > 0
                 && CountsOf(Apply(limit, Claim(p, j), s), q) == c.(free := c.free - 1, checking := c.checking - 1)
  {
    TookCounts(s, j, q);
    MovedCounts(Took(s, j), p, Returned, q);
  }

  lemma FindNothingCounts(limit: nat, s: State, p: int, expired: bool, q: Queue)
    requires Enabled(limit, FindNothing(p, expired), s)
    ensures var c := CountsOf(s, q);
            if q != s.pollers[p].queue then CountsOf(Apply(limit, FindNothing(p, expired), s), q) == c
            else && c.free == 0 && c.checking > 0
                 && CountsOf(Apply(limit, FindNothing(p, expired), s), q)
                 == c.(checking := c.checking - 1, entering := c.entering + One(!expired))
  {
    MovedCounts(s, p, if expired then Returned else Entering, q);
  }

  lemma TakeCounts(limit: nat, s: State, p: int, q: Queue)
    requires Enabled(limit, Take(p), s)
    ensures var c := CountsOf(s, q);
            if q != s.pollers[p].queue then CountsOf(Apply(limit, Take(p), s), q) == c
            else && c.tokens > 0 && c.entering > 0
                 && CountsOf(Apply(limit, Take(p), s), q)
                 == c.(tokens := c.tokens - 1, entering := c.entering - 1, checking := c.checking + 1)
  {
    var t := s.(channels := D.Taken(s.channels, s.pollers[p].queue));
    assert t.jobs == s.jobs && t.pollers == s.pollers;
    MovedCounts(t, p, Checking, q);
  }

  lemma BlockCounts(limit: nat, s: State, p: int, q: Queue)
    requires Enabled(limit, Block(p), s)
    ensures var c := CountsOf(s, q);
            if q != s.pollers[p].queue then CountsOf(Apply(limit, Block(p), s), q) == c
            else && c.tokens == 0 && c.entering > 0
                 && CountsOf(Apply(limit, Block(p), s), q)
                 == c.(entering := c.entering - 1, blocked := c.blocked + 1)
  {
    MovedCounts(s, p, Blocked, q);
  }

  lemma TimeOutCounts(limit: nat, s: State, p: int, q: Queue)
    requires Enabled(limit, TimeOut(p), s)
    ensures var c := CountsOf(s, q);
            var t := CountsOf(Apply(limit, TimeOut(p), s), q);
            if q != s.pollers[p].queue then t == c
            else if s.pollers[p].phase == Entering
            then c.entering > 0 && t == c.(entering := c.entering - 1, checking := c.checking + 1)
            else c.blocked > 0 && t == c.(blocked := c.blocked - 1, checking := c.checking + 1)
  {
    MovedCounts(s, p, Checking, q);
  }

  // ---- The invariant ----

  /** A blocked poller faces an empty buffer; and either every available job has its own wake-up,
      or nobody is blocked and every poller on its way into the select has its own token. */
  ghost predicate Covered(c: Counts) {
    && (c.blocked > 0 ==> c.tokens == 0)
    && (|| c.free <= c.tokens + c.flying + c.checking
        || (c.entering <= c.tokens && c.blocked == 0))
  }

  ghost predicate Inv(limit: nat, s: State) {
    && !s.channels.closed
    && (forall p :: p in s.pollers ==> s.pollers[p].queue in s.channels.buffers)
    && (forall q :: Covered(CountsOf(s, q)) && CountsOf(s, q).entering <= limit)
  }

  /** Nobody waits on a channel that does not exist. */
  lemma NobodyWithoutChannel(limit: nat, s: State, q: Queue)
    requires Inv(limit, s) && q !in s.channels.buffers
    ensures CountsOf(s, q).entering == 0 && CountsOf(s, q).blocked == 0
  {
    assert forall p :: p in s.pollers ==> s.pollers[p].queue != q;
    assert At(s, q, Entering) == {} && At(s, q, Blocked) == {};
  }

  /** How one step can shift the counts of one queue. */
  ghost predicate Shifts(limit: nat, c: Counts, d: Counts) {
    || d == c
    || d == c.(free := c.free + 1, flying := c.flying + 1)
    || d == c.(checking := c.checking + 1)
    || (c.free > 0 && (d == c.(free := c.free - 1)
                       || (c.checking > 0 && d == c.(free := c.free - 1, checking := c.checking - 1))))
    || (c.free == 0 && c.checking > 0
        && (|| d == c.(checking := c.checking - 1)
            || (c.entering < limit && d == c.(checking := c.checking - 1, entering := c.entering + 1))))
    || ShiftsWakeUp(c, d)
    || ShiftsWaiting(c, d)
  }

  /** A notification becomes a token, is dropped, or goes to a blocked poller. */
  ghost predicate ShiftsWakeUp(c: Counts, d: Counts) {
    && c.flying > 0
    && (|| (c.blocked == 0 && d == c.(flying := c.flying - 1, tokens := c.tokens + 1))
        || (c.blocked == 0 && (c.tokens >= D.CAPACITY || c.entering == 0) && d == c.(flying := c.flying - 1))
        || (c.blocked > 0 && d == c.(flying := c.flying - 1, blocked := c.blocked - 1, checking := c.checking + 1)))
  }

  /** A waiting poller takes a token, blocks, or times out. */
  ghost predicate ShiftsWaiting(c: Counts, d: Counts) {
    || (c.entering > 0
        && (|| (c.tokens > 0 && d == c.(tokens := c.tokens - 1, entering := c.entering - 1, checking := c.checking + 1))
            || (c.tokens == 0 && d == c.(entering := c.entering - 1, blocked := c.blocked + 1))
            || d == c.(entering := c.entering - 1, checking := c.checking + 1)))
    || (c.blocked > 0 && d == c.(blocked := c.blocked - 1, checking := c.checking + 1))
  }

  lemma ShiftsKeepCovered(limit: nat, c: Counts, d: Counts)
    requires limit <= D.CAPACITY && Covered(c) && c.entering <= limit && Shifts(limit, c, d)
    ensures Covered(d) && d.entering <= limit
  {
  }

  lemma JobStepShifts(limit: nat, a: Action, s: State, q: Queue)
    requires Enabled(limit, a, s) && (a.Insert? || a.Notify? || a.Claim? || a.ClaimElsewhere?)
    ensures Shifts(limit, CountsOf(s, q), CountsOf(Apply(limit, a, s), q))
  {
    match a
    case Insert(j, q0) => InsertCounts(limit, s, j, q0, q);
    case Notify(q0) => NotifyCounts(limit, s, q0, q);
    case Claim(p, j) => ClaimCounts(limit, s, p, j, q);
    case ClaimElsewhere(j) => TookCounts(s, j, q);
  }

  lemma DeliverShifts(limit: nat, a: Action, s: State, q: Queue)
    requires Inv(limit, s) && Enabled(limit, a, s) && a.Deliver?
    ensures Shifts(limit, CountsOf(s, q), CountsOf(Apply(limit, a, s), q))
  {
    if a.receiver.Some? {
      HandOffCounts(limit, s, a.queue, a.receiver.value, q);
    } else {
      DeliverCounts(limit, s, a.queue, q);
      if q !in s.channels.buffers {
        NobodyWithoutChannel(limit, s, q);
      }
    }
  }

  lemma PollerStepShifts(limit: nat, a: Action, s: State, q: Queue)
    requires Enabled(limit, a, s) && (a.Arrive? || a.FindNothing? || a.Take? || a.Block? || a.TimeOut?)
    ensures Shifts(limit, CountsOf(s, q), CountsOf(Apply(limit, a, s), q))
  {
    match a
    case Arrive(p, q0) => ArriveCounts(limit, s, p, q0, q);
    case FindNothing(p, expired) => FindNothingCounts(limit, s, p, expired, q);
    case Take(p) => TakeCounts(limit, s, p, q);
    case Block(p) => BlockCounts(limit, s, p, q);
    case TimeOut(p) => TimeOutCounts(limit, s, p, q);
  }

  lemma StepKeepsCovered(limit: nat, a: Action, s: State, q: Queue)
    requires limit <= D.CAPACITY && Inv(limit, s) && Enabled(limit, a, s)
    ensures var c := CountsOf(Apply(limit, a, s), q);
            Covered(c) && c.entering <= limit
  {
    if a.Deliver? {
      DeliverShifts(limit, a, s, q);
    } else if a.Insert? || a.Notify? || a.Claim? || a.ClaimElsewhere? {
      JobStepShifts(limit, a, s, q);
    } else {
      PollerStepShifts(limit, a, s, q);
    }
    ShiftsKeepCovered(limit, CountsOf(s, q), CountsOf(Apply(limit, a, s), q));
  }

  lemma StepKeepsInv(limit: nat, a: Action, s: State)
    requires limit <= D.CAPACITY && Inv(limit, s) && Enabled(limit, a, s)
    ensures Inv(limit, Apply(limit, a, s))
  {
    forall q ensures Covered(CountsOf(Apply(limit, a, s), q)) && CountsOf(Apply(limit, a, s), q).entering <= limit {
      StepKeepsCovered(limit, a, s, q);
    }
  }

  lemma InitCounts(q: Queue)
    ensures CountsOf(INIT, q) == Counts(0, 0, 0, 0, 0, 0)
  {
    assert Free(INIT, q) == {};
    assert At(INIT, q, Checking) == {} && At(INIT, q, Entering) == {} && At(INIT, q, Blocked) == {};
  }

  lemma {:induction false} InvHolds(limit: nat, run: seq<Action>)
    requires limit <= D.CAPACITY && Legal(limit, run)
    ensures Inv(limit, Outcome(limit, run))
  {
    if run == [] {
      forall q ensures Covered(CountsOf(INIT, q)) && CountsOf(INIT, q).entering <= limit {
        InitCounts(q);
      }
    } else {
      InvHolds(limit, run[..|run| - 1]);
      StepKeepsInv(limit, run[|run| - 1], Outcome(limit, run[..|run| - 1]));
    }
  }

  lemma CoveredIsEnough(s: State)
    requires forall q :: Covered(CountsOf(s, q))
    ensures NobodyForgotten(s)
  {
    forall q | Parked(s, q) != {} && Free(s, q) != {}
      ensures WakeUpPending(s, q)
    {
      assert Covered(CountsOf(s, q));
    }
  }

  // ---- One entering poller more than the buffer holds is too many ----

  const Q: Queue := "1"

  /** Pollers 1..n of queue `Q` are on their way in except 1..r, which have returned; jobs 1..b have been
      inserted and 1..r taken; `tokens` wake-ups are buffered and none is on its way. */
  ghost predicate Shape(s: State, n: nat, r: nat, b: nat, tokens: nat) {
    && s.unsent == multiset{} && s.inFlight == multiset{} && !s.channels.closed
    && (forall p :: p in s.pollers <==> 1 <= p <= n)
    && (forall p :: 1 <= p <= n ==> s.pollers[p] == Poller(Q, if p <= r then Returned else Entering))
    && (forall j :: j in s.jobs <==> 1 <= j <= b)
    && (forall j :: 1 <= j <= b ==> s.jobs[j] == Job(Q, r < j))
    && (n > 0 ==> Q in s.channels.buffers)
    && Tokens(s, Q) == tokens
  }

  lemma ShapeEntering(s: State, n: nat, r: nat, b: nat, tokens: nat)
    requires Shape(s, n, r, b, tokens) && r <= n
    ensures |At(s, Q, Entering)| == n - r
    ensures At(s, Q, Checking) == {} && At(s, Q, Blocked) == {}
  {
    var entering := At(s, Q, Entering);
    forall p ensures p in entering <==> r + 1 <= p <= n {
    }
    assert entering == Interval(r + 1, n);
    IntervalSize(r + 1, n);
  }

  lemma EnterOne(limit: nat, s: State, n: nat)
    requires Shape(s, n, 0, 0, 0) && n < limit
    ensures var arrive, enter := Arrive(n + 1, Q), FindNothing(n + 1, false);
            && Enabled(limit, arrive, s)
            && Enabled(limit, enter, Apply(limit, arrive, s))
            && Shape(Apply(limit, enter, Apply(limit, arrive, s)), n + 1, 0, 0, 0)
  {
    ShapeEntering(s, n, 0, 0, 0);
    ArriveCounts(limit, s, n + 1, Q, Q);
    var t := Apply(limit, Arrive(n + 1, Q), s);
    assert t.jobs == s.jobs;
    forall j ensures j !in Open(s.jobs, Q) {
      assert j !in s.jobs;
    }
    assert Free(t, Q) == {};
  }

  lemma AnnounceOne(limit: nat, s: State, n: nat, b: nat, tokens: nat)
    requires Shape(s, n, 0, b, tokens) && 0 < n
    ensures var insert, notify, deliver := Insert(b + 1, Q), Notify(Q), Deliver(Q, None);
            && Enabled(limit, insert, s)
            && Enabled(limit, notify, Apply(limit, insert, s))
            && Enabled(limit, deliver, Apply(limit, notify, Apply(limit, insert, s)))
            && Shape(Apply(limit, deliver, Apply(limit, notify, Apply(limit, insert, s))),
                     n, 0, b + 1, if tokens < D.CAPACITY then tokens + 1 else tokens)
  {
    ShapeEntering(s, n, 0, b, tokens);
    var s1 := Apply(limit, Insert(b + 1, Q), s);
    assert s1.unsent == multiset{Q};
    var s2 := Apply(limit, Notify(Q), s1);
    assert s2.unsent == multiset{} && s2.inFlight == multiset{Q};
  }

  lemma ServeOne(limit: nat, s: State, n: nat, r: nat, b: nat, tokens: nat)
    requires Shape(s, n, r, b, tokens) && r < n && r < b && 0 < tokens
    ensures var take, claim := Take(r + 1), Claim(r + 1, r + 1);
            && Enabled(limit, take, s)
            && Enabled(limit, claim, Apply(limit, take, s))
            && Shape(Apply(limit, claim, Apply(limit, take, s)), n, r + 1, b, tokens - 1)
  {
    assert s.pollers[r + 1] == Poller(Q, Entering) && s.jobs[r + 1] == Job(Q, true);
    assert r + 1 in Free(Apply(limit, Take(r + 1), s), Q);
  }

  ghost predicate Reachable(limit: nat, s: State) {
    exists run :: Legal(limit, run) && Outcome(limit, run) == s
  }

  lemma ReachStep(limit: nat, s: State, a: Action)
    requires Reachable(limit, s) && Enabled(limit, a, s)
    ensures Reachable(limit, Apply(limit, a, s))
  {
    var run :| Legal(limit, run) && Outcome(limit, run) == s;
    var longer := run + [a];
    assert longer[..|longer| - 1] == run && longer[|longer| - 1] == a;
    assert Legal(limit, longer) && Outcome(limit, longer) == Apply(limit, a, s);
  }

  lemma ReachTwo(limit: nat, s: State, a: Action, b: Action)
    requires Reachable(limit, s) && Enabled(limit, a, s) && Enabled(limit, b, Apply(limit, a, s))
    ensures Reachable(limit, Apply(limit, b, Apply(limit, a, s)))
  {
    ReachStep(limit, s, a);
    ReachStep(limit, Apply(limit, a, s), b);
  }

  lemma ReachThree(limit: nat, s: State, a: Action, b: Action, c: Action)
    requires Reachable(limit, s) && Enabled(limit, a, s) && Enabled(limit, b, Apply(limit, a, s))
    requires Enabled(limit, c, Apply(limit, b, Apply(limit, a, s)))
    ensures Reachable(limit, Apply(limit, c, Apply(limit, b, Apply(limit, a, s))))
  {
    ReachTwo(limit, s, a, b);
    ReachStep(limit, Apply(limit, b, Apply(limit, a, s)), c);
  }

  /** A state of the given shape can be reached. */
  ghost predicate Attained(limit: nat, n: nat, r: nat, b: nat, tokens: nat) {
    exists s :: Reachable(limit, s) && Shape(s, n, r, b, tokens)
  }

  lemma {:induction false} ReachEntering(limit: nat, n: nat)
    requires n <= limit
    ensures Attained(limit, n, 0, 0, 0)
  {
    if n == 0 {
      assert Legal(limit, []) && Outcome(limit, []) == INIT;
      assert Reachable(limit, INIT) && Shape(INIT, 0, 0, 0, 0);
    } else {
      ReachEntering(limit, n - 1);
      var t :| Reachable(limit, t) && Shape(t, n - 1, 0, 0, 0);
      EnterOne(limit, t, n - 1);
      ReachTwo(limit, t, Arrive(n, Q), FindNothing(n, false));
    }
  }

  lemma ReachOneMore(limit: nat, n: nat, b: nat, tokens: nat)
    requires 0 < n && Attained(limit, n, 0, b, tokens)
    ensures Attained(limit, n, 0, b + 1, if tokens < D.CAPACITY then tokens + 1 else tokens)
  {
    var t :| Reachable(limit, t) && Shape(t, n, 0, b, tokens);
    AnnounceOne(limit, t, n, b, tokens);
    ReachThree(limit, t, Insert(b + 1, Q), Notify(Q), Deliver(Q, None));
  }

  lemma {:induction false} ReachAnnounced(limit: nat, n: nat, b: nat)
    requires 0 < n <= limit
    ensures Attained(limit, n, 0, b, if b < D.CAPACITY then b else D.CAPACITY)
  {
    if b == 0 {
      ReachEntering(limit, n);
    } else {
      ReachAnnounced(limit, n, b - 1);
      ReachOneMore(limit, n, b - 1, if b - 1 < D.CAPACITY then b - 1 else D.CAPACITY);
    }
  }

  lemma ReachOneServed(limit: nat, n: nat, r: nat, b: nat, tokens: nat)
    requires r < n && r < b && 0 < tokens && Attained(limit, n, r, b, tokens)
    ensures Attained(limit, n, r + 1, b, tokens - 1)
  {
    var t :| Reachable(limit, t) && Shape(t, n, r, b, tokens);
    ServeOne(limit, t, n, r, b, tokens);
    ReachTwo(limit, t, Take(r + 1), Claim(r + 1, r + 1));
  }

  lemma {:induction false} ReachServed(limit: nat, n: nat, r: nat)
    requires D.CAPACITY < n <= limit && r <= D.CAPACITY
    ensures Attained(limit, n, r, n, D.CAPACITY - r)
  {
    if r == 0 {
      ReachAnnounced(limit, n, n);
    } else {
      ReachServed(limit, n, r - 1);
      ReachOneServed(limit, n, r - 1, n, D.CAPACITY - (r - 1));
    }
  }

  /** 33 pollers find nothing and are held up before the select while 33 jobs are announced, so
      the last token is dropped; 32 of them take a token and a job, and the last one blocks
      beside the last job. */
  lemma OneTooManyIsForgotten(limit: nat) returns (s: State)
    requires limit > D.CAPACITY
    ensures Reachable(limit, s) && !NobodyForgotten(s)
    ensures At(s, Q, Blocked) != {} && At(s, Q, Entering) == {}
  {
    var n := D.CAPACITY + 1;
    ReachServed(limit, n, D.CAPACITY);
    var t :| Reachable(limit, t) && Shape(t, n, D.CAPACITY, n, 0);
    ShapeEntering(t, n, n - 1, n, 0);
    assert t.pollers[n] == Poller(Q, Entering) && t.jobs[n] == Job(Q, true);
    ReachStep(limit, t, Block(n));
    s := Apply(limit, Block(n), t);
    BlockCounts(limit, t, n, Q);
    assert n in At(s, Q, Blocked) && n in Free(s, Q);
    assert !WakeUpPending(s, Q);
  }

  /** No wake-up is ever lost exactly when no more pollers of a queue are at one time between an
      empty query and the select than its channel has slots. Any number may be blocked in it. */
  lemma NoLostWakeUp(limit: nat)
    ensures (forall s :: Reachable(limit, s) ==> NobodyForgotten(s)) <==> limit <= D.CAPACITY
  {
    if limit <= D.CAPACITY {
      forall s | Reachable(limit, s) ensures NobodyForgotten(s) {
        var run :| Legal(limit, run) && Outcome(limit, run) == s;
        InvHolds(limit, run);
        CoveredIsEnough(s);
      }
    } else {
      var s := OneTooManyIsForgotten(limit);
    }
  }
}
