/** The notifier: reference-counted subscriptions to topics, over one database connection that a
    run loop keeps open, listens on, loses and reopens. Every call of Listen or Unlisten is one
    step; the loop moves between calls. */
module Notifier {
  import opened Common

  type Topic = string

  /** Subscriptions are told apart by number; the source compares pointers. */
  type Sub = int

  /** The fields of the notifier, and its connection: `channels` are the topics the connection
      has been told to LISTEN on, and a connection that is not `alive` fails every command. */
  datatype Core = Core(
    subs: map<Topic, seq<Sub>>, connected: bool, channels: set<Topic>, alive: bool, started: bool, waiting: bool)

  /** Which of the commands a call may send would succeed. */
  datatype Luck = Luck(connect: bool, command: bool)

  function SubsOf(c: Core, t: Topic): seq<Sub> {
    if t in c.subs then c.subs[t] else []
  }

  function Opened(c: Core, ok: bool): Core {
    if c.connected || !ok then c else c.(connected := true, channels := {}, alive := true)
  }

  function Shut(c: Core): Core {
    if c.connected then c.(connected := false, channels := {}, alive := false) else c
  }

  function Added(c: Core, t: Topic, x: Sub): Core {
    c.(subs := c.subs[t := SubsOf(c, t) + [x]])
  }

  /** `slices.DeleteFunc` with equality to `x`. */
  function Deleted(xs: seq<Sub>, x: Sub): seq<Sub> {
    if xs == [] then []
    else
      var rest := Deleted(xs[..|xs| - 1], x);
      if xs[|xs| - 1] == x then rest else rest + [xs[|xs| - 1]]
  }

  function Removed(c: Core, t: Topic, x: Sub): Core {
    var left := Deleted(SubsOf(c, t), x);
    c.(subs := if left == [] then c.subs - {t} else c.subs[t := left])
  }

  /** What Listen does to the fields, and whether it succeeds. */
  function Listened(c: Core, t: Topic, x: Sub, luck: Luck): (Core, bool) {
    if t in c.subs then (Added(c, t, x), true)
    else if c.waiting then
      if luck.command then (Added(c, t, x).(channels := c.channels + {t}), true) else (c, false)
    else
      var up := Opened(c, luck.connect);
      if !up.connected then (c, false)
      else if luck.command then (Added(up, t, x).(channels := up.channels + {t}), true)
      else (if c.connected || c.started then up else Shut(up), false)
  }

  /** What Unlisten does to the fields, and whether it succeeds. */
  function Unlistened(c: Core, t: Topic, x: Sub, ok: bool): (Core, bool) {
    var quiet := c.(channels := c.channels - {t});
    if |SubsOf(c, t)| > 1 then (Removed(c, t, x), true)
    else if c.waiting then
      if ok then (Removed(quiet, t, x), true) else (c, false)
    else if !c.connected then (Removed(c, t, x), true)
    else if !ok then (c, false)
    else (Removed(if !c.started && |c.subs| <= 1 then Shut(quiet) else quiet, t, x), true)
  }

  // ---- The object ----

  class Notifier {
    var subscriptions: map<Topic, seq<Sub>>
    var isConnected: bool
    var isStarted: bool
    var isWaiting: bool
    /** The listener's connection. */
    var channels: set<Topic>
    var alive: bool

    ghost function Fields(): Core
      reads this
    {
      Core(subscriptions, isConnected, channels, alive, isStarted, isWaiting)
    }

    method ListenerConnect() returns (ok: bool)
      modifies this
      ensures Fields() == Opened(old(Fields()), ok) && ok == isConnected
    {
      if isConnected {
        return true;
      }
      ok := *;
      if ok {
        isConnected, channels, alive := true, {}, true;
      }
    }

    method ListenerClose()
      modifies this
      ensures Fields() == Shut(old(Fields()))
    {
      if !isConnected {
        return;
      }
      isConnected, channels, alive := false, {}, false;
    }

    method ListenerListen(t: Topic) returns (ok: bool)
      modifies this`channels
      ensures ok ==> alive && channels == old(channels) + {t}
      ensures !ok ==> channels == old(channels)
    {
      ok := *;
      ok := ok && alive;
      if ok {
        channels := channels + {t};
      }
    }

    method ListenerUnlisten(t: Topic) returns (ok: bool)
      modifies this`channels
      ensures ok ==> alive && channels == old(channels) - {t}
      ensures !ok ==> channels == old(channels)
    {
      ok := *;
      ok := ok && alive;
      if ok {
        channels := channels - {t};
      }
    }

    method RemoveSubscription(t: Topic, x: Sub)
      modifies this`subscriptions
      ensures Fields() == Removed(old(Fields()), t, x)
    {
      var left := Deleted(if t in subscriptions then subscriptions[t] else [], x);
      subscriptions := subscriptions[t := left];
      if |left| < 1 {
        subscriptions := subscriptions - {t};
        assert subscriptions == old(subscriptions) - {t};
      }
    }

    /** Adds the subscription first, and takes it back if the topic cannot be listened on. */
    method Listen(t: Topic, x: Sub) returns (ok: bool, ghost luck: Luck)
      modifies this
      ensures (Fields(), ok) == Listened(old(Fields()), t, x, luck)
      ensures luck.command && t !in old(subscriptions) ==> alive
    {
      luck := Luck(false, false);
      var known := t in subscriptions;
      subscriptions := subscriptions[t := (if known then subscriptions[t] else []) + [x]];
      if known {
        return true, luck;
      }
      DeletedLast([], x);
      assert subscriptions[t] == [x] && subscriptions - {t} == old(subscriptions);
      if isWaiting {
        ok := ListenerListen(t);
        luck := Luck(false, ok);
        if !ok {
          RemoveSubscription(t, x);
        }
        return ok, luck;
      }
      var justConnected := false;
      if !isConnected {
        ok := ListenerConnect();
        luck := Luck(ok, false);
        if !ok {
          RemoveSubscription(t, x);
          return false, luck;
        }
        justConnected := true;
      }
      ok := ListenerListen(t);
      luck := luck.(command := ok);
      if !ok {
        RemoveSubscription(t, x);
        if justConnected && !isStarted {
          ListenerClose();
        }
      }
    }

    method Unlisten(t: Topic, x: Sub) returns (ok: bool, ghost luck: bool)
      modifies this
      ensures (Fields(), ok) == Unlistened(old(Fields()), t, x, luck)
      ensures luck ==> old(alive)
    {
      luck := false;
      if (if t in subscriptions then |subscriptions[t]| else 0) <= 1 {
        if isWaiting {
          ok := ListenerUnlisten(t);
          luck := ok;
          if !ok {
            return false, luck;
          }
        } else if isConnected {
          ok := ListenerUnlisten(t);
          luck := ok;
          if !ok {
            return false, luck;
          }
          if !isStarted && |subscriptions| <= 1 {
            ListenerClose();
          }
        }
      }
      RemoveSubscription(t, x);
      return true, luck;
    }

    /** The start of one listening session, when no call comes in between: connect, and listen on
        every topic with a subscriber. It fails half way or covers them all. */
    method OpenSession() returns (ok: bool)
      modifies this`isConnected, this`channels, this`alive
      ensures ok ==> isConnected && subscriptions.Keys <= channels
    {
      var current := subscriptions;
      ok := *;
      if !isConnected {
        if !ok {
          return false;
        }
        isConnected, channels, alive := true, {}, true;
      }
      var topics := current.Keys;
      while topics != {}
        invariant isConnected && subscriptions == current && topics <= current.Keys <= channels + topics
        decreases |topics|
      {
        var t :| t in topics;
        ok := ListenerListen(t);
        if !ok {
          return false;
        }
        topics := topics - {t};
      }
      return true;
    }
  }

  lemma {:induction false} DeletedLast(xs: seq<Sub>, x: Sub)
    requires x !in xs
    ensures Deleted(xs, x) == xs && Deleted(xs + [x], x) == xs
  {
    assert (xs + [x])[..|xs|] == xs;
    if xs == [] {
    } else {
      var n := |xs| - 1;
      assert xs == xs[..n] + [xs[n]];
      DeletedLast(xs[..n], x);
    }
  }

  ghost predicate NoRepeats(xs: seq<Sub>) {
    forall i, j :: 0 <= i < j < |xs| ==> xs[i] != xs[j]
  }

  lemma {:induction false} DeletedElements(xs: seq<Sub>, x: Sub)
    ensures forall y :: y in Deleted(xs, x) <==> y in xs && y != x
    ensures NoRepeats(xs) ==> NoRepeats(Deleted(xs, x))
  {
    if xs == [] {
    } else {
      var n := |xs| - 1;
      DeletedElements(xs[..n], x);
      assert forall y :: y in xs <==> y in xs[..n] || y == xs[n];
      if NoRepeats(xs) {
        assert NoRepeats(xs[..n]) && xs[n] !in xs[..n];
        assert xs[n] !in Deleted(xs[..n], x);
      }
    }
  }

  // ---- The notifier and its run loop ----

  /** Where the run loop stands. `Listening` holds the topics it has yet to listen on. */
  datatype Phase =
    | Off
    | Starting
    | Down
    | Up
    | Listening(todo: set<Topic>)
    | Between
    | Waiting
    | Closing

  /** `held` are the subscriptions handed out, `gone` those given back for good, and `spent`
      those whose one Unlisten has been used. */
  datatype State = State(core: Core, phase: Phase, held: map<Sub, Topic>, gone: set<Sub>, spent: set<Sub>)

  const INIT := State(Core(map[], false, {}, false, false, false), Off, map[], {}, {})

  datatype Action =
    | Listen(topic: Topic, sub: Sub, luck: Luck)
    | Unlisten(sub: Sub, ok: bool)
    | Lose
    | Start(ok: bool)
    | Begin
    | Connect(ok: bool)
    | Snapshot
    | ListenNext(topic: Topic, ok: bool)
    | Wait
    | WaitEnds
    | Leave
    | Close
    | End

  ghost predicate Enabled(a: Action, s: State) {
    match a
    case Listen(t, x, luck) =>
      x !in s.held && (luck.command ==> Opened(s.core, luck.connect).alive)
    case Unlisten(x, ok) => x in s.held && x !in s.spent && (ok ==> s.core.alive)
    case Lose => s.core.connected
    case Start(_) => s.phase == Off
    case Begin => s.phase == Starting
    case Connect(_) => s.phase == Down
    case Snapshot => s.phase == Up
    case ListenNext(t, ok) => s.phase.Listening? && t in s.phase.todo && (ok ==> s.core.alive)
    case Wait => s.phase == Between || s.phase == Listening({})
    case WaitEnds => s.phase == Waiting
    case Leave => s.phase in {Up, Between, Waiting} || s.phase.Listening?
    case Close => s.phase == Down
    case End => s.phase == Closing
  }

  ghost function Apply(a: Action, s: State): State
    requires Enabled(a, s)
  {
    match a
    case Listen(t, x, luck) =>
      var (c, ok) := Listened(s.core, t, x, luck);
      s.(core := c, held := if ok then s.held[x := t] else s.held)
    case Unlisten(x, ok) =>
      var (c, done) := Unlistened(s.core, s.held[x], x, ok);
      s.(core := c, spent := s.spent + {x}, gone := if done then s.gone + {x} else s.gone)
    case Lose => s.(core := s.core.(alive := false))
    case Start(ok) =>
      var c := Opened(s.core, ok);
      s.(core := c, phase := if c.connected then Starting else Off)
    case Begin => s.(core := s.core.(started := true), phase := Down)
    case Connect(ok) =>
      var c := Opened(s.core, ok);
      s.(core := c, phase := if c.connected then Up else Down)
    case Snapshot => s.(phase := Listening(s.core.subs.Keys))
    case ListenNext(t, ok) =>
      if ok then s.(core := s.core.(channels := s.core.channels + {t}), phase := Listening(s.phase.todo - {t}))
      else s.(core := Shut(s.core), phase := Down)
    case Wait => s.(core := s.core.(waiting := true), phase := Waiting)
    case WaitEnds => s.(core := s.core.(waiting := false), phase := Between)
    case Leave => s.(core := Shut(s.core.(waiting := false)), phase := Down)
    case Close => s.(core := Shut(s.core), phase := Closing)
    case End => s.(core := s.core.(started := false), phase := Off)
  }

  // ---- The invariant ----

  /** The lists hold exactly the subscriptions that were handed out and not given back. */
  ghost predicate Counted(s: State) {
    && (forall t :: t in s.core.subs ==> s.core.subs[t] != [] && NoRepeats(s.core.subs[t]))
    && (forall t, x :: x in SubsOf(s.core, t) <==> x in s.held && s.held[x] == t && x !in s.gone)
    && s.gone <= s.spent <= s.held.Keys
  }

  /** In a session every topic with a subscriber is listened on, or about to be. */
  ghost predicate Covered(c: Core, phase: Phase) {
    match phase
    case Up => c.connected
    case Listening(todo) => c.connected && c.subs.Keys <= c.channels + todo
    case Between => c.connected && c.subs.Keys <= c.channels
    case Waiting => c.connected && c.subs.Keys <= c.channels
    case _ => true
  }

  /** The flags follow the loop, and a closed connection listens on nothing. */
  ghost predicate FlagsFit(s: State) {
    && (!s.core.connected ==> s.core.channels == {})
    && (s.core.started <==> s.phase != Off && s.phase != Starting)
    && (s.core.waiting <==> s.phase == Waiting)
  }

  ghost predicate Inv(s: State) {
    Counted(s) && Covered(s.core, s.phase) && FlagsFit(s)
  }

  lemma StepKeepsFlags(a: Action, s: State)
    requires Covered(s.core, s.phase) && FlagsFit(s) && Enabled(a, s)
    ensures FlagsFit(Apply(a, s))
  {
  }

  lemma IsCounted(s: State, t: Topic, x: Sub)
    requires Counted(s)
    ensures x in SubsOf(s.core, t) <==> x in s.held && s.held[x] == t && x !in s.gone
  {
  }

  lemma ListenKeepsCounted(s: State, t: Topic, x: Sub, luck: Luck)
    requires Inv(s) && Enabled(Listen(t, x, luck), s)
    ensures Counted(Apply(Listen(t, x, luck), s))
  {
    var (c, ok) := Listened(s.core, t, x, luck);
    var s' := Apply(Listen(t, x, luck), s);
    if ok {
      var was := SubsOf(s.core, t);
      assert x !in was;
      assert c.subs == s.core.subs[t := was + [x]];
      forall u, y ensures y in SubsOf(c, u) <==> y in s'.held && s'.held[y] == u && y !in s'.gone {
        IsCounted(s, u, y);
        IsCounted(s, u, x);
      }
    } else {
      assert c.subs == s.core.subs;
      forall u ensures SubsOf(c, u) == SubsOf(s.core, u) {
      }
    }
  }

  lemma RemovedSubs(c: Core, t: Topic, x: Sub, u: Topic)
    ensures var left := SubsOf(Removed(c, t, x), u);
            && (forall y :: y in left <==> y in SubsOf(c, u) && (u == t ==> y != x))
            && (NoRepeats(SubsOf(c, u)) ==> NoRepeats(left))
            && (u in Removed(c, t, x).subs && (u == t || c.subs[u] != []) ==> left != [])
  {
    DeletedElements(SubsOf(c, t), x);
  }

  lemma UnlistenKeepsCounted(s: State, x: Sub, ok: bool)
    requires Inv(s) && Enabled(Unlisten(x, ok), s)
    ensures Counted(Apply(Unlisten(x, ok), s))
  {
    var t := s.held[x];
    var (c, done) := Unlistened(s.core, t, x, ok);
    var s' := Apply(Unlisten(x, ok), s);
    if done {
      assert c.subs == Removed(s.core, t, x).subs;
      forall u, y
        ensures y in SubsOf(c, u) <==> y in s'.held && s'.held[y] == u && y !in s'.gone
        ensures u in c.subs ==> c.subs[u] != [] && NoRepeats(c.subs[u])
      {
        IsCounted(s, u, y);
        RemovedSubs(s.core, t, x, u);
        assert SubsOf(c, u) == SubsOf(Removed(s.core, t, x), u);
      }
    } else {
      assert c == s.core;
    }
  }

  /** A subscription that is held and whose Unlisten is unused is in its topic's list. */
  lemma IsListed(s: State, x: Sub)
    requires Inv(s) && x in s.held && x !in s.spent
    ensures x in SubsOf(s.core, s.held[x])
    ensures |SubsOf(s.core, s.held[x])| <= 1 ==> SubsOf(s.core, s.held[x]) == [x]
  {
    assert x !in s.gone;
  }

  lemma UnlistenKeepsCovered(s: State, x: Sub, ok: bool)
    requires Inv(s) && Enabled(Unlisten(x, ok), s)
    ensures Covered(Apply(Unlisten(x, ok), s).core, s.phase)
  {
    var t := s.held[x];
    var (c, done) := Unlistened(s.core, t, x, ok);
    IsListed(s, x);
    if done {
      DeletedElements(SubsOf(s.core, t), x);
      assert c.subs.Keys <= s.core.subs.Keys;
      if |SubsOf(s.core, t)| <= 1 {
        assert forall y :: y !in Deleted([x], x);
        assert Deleted([x], x) == [];
        assert c.subs == s.core.subs - {t};
      }
    }
  }

  lemma ListenKeepsCovered(s: State, t: Topic, x: Sub, luck: Luck)
    requires Inv(s) && Enabled(Listen(t, x, luck), s)
    ensures Covered(Apply(Listen(t, x, luck), s).core, s.phase)
  {
    var (c, ok) := Listened(s.core, t, x, luck);
    assert c.subs.Keys == s.core.subs.Keys + if ok then {t} else {};
  }

  lemma StepKeepsCovered(a: Action, s: State)
    requires Inv(s) && Enabled(a, s)
    ensures Covered(Apply(a, s).core, Apply(a, s).phase)
  {
    match a {
      case Listen(t, x, luck) => ListenKeepsCovered(s, t, x, luck);
      case Unlisten(x, ok) => UnlistenKeepsCovered(s, x, ok);
      case _ =>
    }
  }

  lemma StepKeepsInv(a: Action, s: State)
    requires Inv(s) && Enabled(a, s)
    ensures Inv(Apply(a, s))
  {
    StepKeepsCovered(a, s);
    StepKeepsFlags(a, s);
    match a {
      case Listen(t, x, luck) => ListenKeepsCounted(s, t, x, luck);
      case Unlisten(x, ok) => UnlistenKeepsCounted(s, x, ok);
      case _ => CountedDependsOn(s, Apply(a, s));
    }
  }

  lemma CountedDependsOn(s: State, s': State)
    requires Counted(s) && s'.core.subs == s.core.subs && s'.held == s.held && s'.gone == s.gone && s'.spent == s.spent
    ensures Counted(s')
  {
    assert forall t :: SubsOf(s'.core, t) == SubsOf(s.core, t);
  }

  // ---- Whole runs ----

  ghost predicate Legal(run: seq<Action>)
    decreases |run|, 0
  {
    run != [] ==>
      Legal(run[..|run| - 1]) && Enabled(run[|run| - 1], Outcome(run[..|run| - 1]))
  }

  ghost function Outcome(run: seq<Action>): State
    requires Legal(run)
    decreases |run|, 1
  {
    if run == [] then INIT else Apply(run[|run| - 1], Outcome(run[..|run| - 1]))
  }

  lemma {:induction false} InvHolds(run: seq<Action>)
    requires Legal(run)
    ensures Inv(Outcome(run))
  {
    if run == [] {
    } else {
      InvHolds(run[..|run| - 1]);
      StepKeepsInv(run[|run| - 1], Outcome(run[..|run| - 1]));
    }
  }

  /** Whenever the loop waits for notifications it is connected and every topic with a
      subscriber has been listened on; and a topic is in the map exactly while some
      subscription to it was handed out and not given back. */
  lemma WaitingCoversSubscribers(run: seq<Action>, t: Topic)
    requires Legal(run)
    ensures var s := Outcome(run);
            && (t in s.core.subs <==> exists x :: x in s.held && s.held[x] == t && x !in s.gone)
            && (t in s.core.subs ==> s.core.subs[t] != [])
            && (s.phase == Waiting && t in s.core.subs ==> s.core.connected && t in s.core.channels)
  {
    InvHolds(run);
    var s := Outcome(run);
    if t in s.core.subs {
      var x := s.core.subs[t][0];
      IsCounted(s, t, x);
    } else {
      forall x | x in s.held && s.held[x] == t ensures x in s.gone {
        IsCounted(s, t, x);
      }
    }
  }

  /** Giving back the last subscription of a topic ends the listening on it. */
  lemma LastUnlistenSilences(s: State, x: Sub, ok: bool)
    requires Inv(s) && Enabled(Unlisten(x, ok), s)
    ensures var s' := Apply(Unlisten(x, ok), s);
            x in s'.gone && s.held[x] !in s'.core.subs ==> s.held[x] !in s'.core.channels
  {
    var t := s.held[x];
    var xs := SubsOf(s.core, t);
    IsListed(s, x);
    if |xs| > 1 {
      var y := if xs[0] == x then xs[1] else xs[0];
      DeletedElements(xs, x);
      assert y in xs && y != x;
      assert y in Deleted(xs, x);
    }
  }

  // ---- Topics listened on for nobody ----

  /** The connection has been told to listen on a topic without a subscriber. */
  ghost predicate Stale(s: State, t: Topic) {
    t in s.core.channels && t !in s.core.subs
  }

  ghost predicate Unsubscribed(s: State, t: Topic) {
    s.core.connected && t !in s.core.subs
  }

  lemma CallKeepsStale(a: Action, s: State, t: Topic)
    requires Inv(s) && Enabled(a, s) && IsCall(a)
    ensures Stale(Apply(a, s), t) <==> Unsubscribed(Apply(a, s), t) && Stale(s, t)
  {
    if a.Unlisten? {
      var u := s.held[a.sub];
      IsListed(s, a.sub);
      if |SubsOf(s.core, u)| > 1 {
        var xs := SubsOf(s.core, u);
        DeletedElements(xs, a.sub);
        var y := if xs[0] == a.sub then xs[1] else xs[0];
        assert y in Deleted(xs, a.sub);
      }
    }
  }

  /** A topic becomes stale only when the opening of a session listens on it after its last
      subscription was given back, and stays so while the connection does and nobody subscribes. */
  lemma StepKeepsStale(a: Action, s: State, t: Topic)
    requires Inv(s) && Enabled(a, s)
    ensures Stale(Apply(a, s), t) <==>
              Unsubscribed(Apply(a, s), t) && (Stale(s, t) || a == ListenNext(t, true))
  {
    if IsCall(a) {
      CallKeepsStale(a, s, t);
    }
  }

  /** Step `i` of the run listens on the topic, and from then on nobody subscribes to it and the
      connection stays. */
  ghost predicate ListenedForNobody(run: seq<Action>, i: int, t: Topic) {
    && 0 <= i < |run| && run[i] == ListenNext(t, true)
    && forall j :: i <= j <= |run| ==> Legal(run[..j]) && Unsubscribed(Outcome(run[..j]), t)
  }

  /** Over every run: the connection listens on a topic nobody subscribes to exactly when the
      opening of its session listened on it too late. */
  lemma {:induction false} StaleExactly(run: seq<Action>, t: Topic)
    requires Legal(run)
    ensures Stale(Outcome(run), t) <==> exists i :: ListenedForNobody(run, i, t)
  {
    if run == [] {
      assert !Stale(INIT, t);
    } else {
      var n := |run| - 1;
      var before := run[..n];
      InvHolds(before);
      StaleExactly(before, t);
      StepKeepsStale(run[n], Outcome(before), t);
      assert run[..n + 1] == run;
      if Stale(Outcome(run), t) {
        if i :| ListenedForNobody(before, i, t) {
          LaterStep(run, i, t);
        } else {
          assert Unsubscribed(Outcome(before), t);
          assert ListenedForNobody(run, n, t);
        }
      } else {
        forall i ensures !ListenedForNobody(run, i, t) {
          NotForNobody(run, i, t);
        }
      }
    }
  }

  lemma NotForNobody(run: seq<Action>, i: int, t: Topic)
    requires Legal(run) && run != [] && !Stale(Outcome(run), t)
    requires ListenedForNobody(run[..|run| - 1], i, t) ==> Stale(Outcome(run[..|run| - 1]), t)
    requires Stale(Outcome(run), t) <==>
               Unsubscribed(Outcome(run), t) && (Stale(Outcome(run[..|run| - 1]), t) || run[|run| - 1] == ListenNext(t, true))
    ensures !ListenedForNobody(run, i, t)
  {
    assert run[..|run|] == run;
    if ListenedForNobody(run, i, t) {
      if i < |run| - 1 {
        EarlierStep(run, i, t);
      }
      assert false;
    }
  }

  lemma LaterStep(run: seq<Action>, i: int, t: Topic)
    requires Legal(run) && run != [] && ListenedForNobody(run[..|run| - 1], i, t) && Unsubscribed(Outcome(run), t)
    ensures ListenedForNobody(run, i, t)
  {
    forall j | i <= j <= |run| ensures Legal(run[..j]) && Unsubscribed(Outcome(run[..j]), t) {
      if j < |run| {
        StepBefore(run, i, t, j);
      } else {
        assert run[..j] == run;
      }
    }
  }

  lemma StepBefore(run: seq<Action>, i: int, t: Topic, j: int)
    requires run != [] && ListenedForNobody(run[..|run| - 1], i, t) && i <= j < |run|
    ensures Legal(run[..j]) && Unsubscribed(Outcome(run[..j]), t)
  {
    assert run[..|run| - 1][..j] == run[..j];
  }

  lemma EarlierStep(run: seq<Action>, i: int, t: Topic)
    requires run != [] && ListenedForNobody(run, i, t) && i < |run| - 1
    ensures ListenedForNobody(run[..|run| - 1], i, t)
  {
    var before := run[..|run| - 1];
    forall j | i <= j <= |before| ensures Legal(before[..j]) && Unsubscribed(Outcome(before[..j]), t) {
      assert before[..j] == run[..j];
    }
  }

  lemma OpeningIsReachable() returns (run: seq<Action>)
    ensures Legal(run)
    ensures var s := Outcome(run);
            && s.phase == Listening({"a"}) && s.held == map[1 := "a"] && s.gone == {} && s.spent == {}
            && s.core.subs == map["a" := [1]] && s.core.connected && s.core.alive && s.core.started && !s.core.waiting
  {
    run := Extended([], Listen("a", 1, Luck(true, true)));
    assert [] + [1] == [1];
    assert Outcome(run).core.subs == map["a" := [1]] && Outcome(run).held == map[1 := "a"];
    run := Extended(run, Start(true));
    run := Extended(run, Begin);
    run := Extended(run, Connect(true));
    run := Extended(run, Snapshot);
    assert Outcome(run).core.subs.Keys == {"a"};
  }

  /** The first session is opened for one subscription, which is given back between the listing
      of the topics and the listening. */
  lemma StaleIsReachable() returns (run: seq<Action>)
    ensures Legal(run) && Outcome(run).phase == Waiting && Stale(Outcome(run), "a")
  {
    run := OpeningIsReachable();
    DeletedLast([], 1);
    assert [] + [1] == [1];
    run := Extended(run, Unlisten(1, true));
    run := Extended(run, ListenNext("a", true));
    run := Extended(run, Wait);
  }

  lemma Extended(run: seq<Action>, a: Action) returns (longer: seq<Action>)
    requires Legal(run) && Enabled(a, Outcome(run))
    ensures Legal(longer) && Outcome(longer) == Apply(a, Outcome(run))
  {
    longer := run + [a];
    assert longer[..|longer| - 1] == run && longer[|longer| - 1] == a;
  }

  // ---- The standing subscription ----

  ghost predicate Stands(s: State, x: Sub) {
    x in s.held && x !in s.spent
  }

  ghost predicate IsCall(a: Action) {
    a.Listen? || a.Unlisten?
  }

  /** Other calls, on the same topic or another, never touch what the connection listens on for
      the topic of a standing subscription. */
  lemma CallsLeaveStandingTopic(a: Action, s: State, x: Sub)
    requires Inv(s) && Enabled(a, s) && IsCall(a) && Stands(s, x) && !(a.Unlisten? && a.sub == x)
    ensures var t := s.held[x];
            t in s.core.channels <==> t in Apply(a, s).core.channels
  {
    var t := s.held[x];
    IsListed(s, x);
    if a.Unlisten? {
      var u := s.held[a.sub];
      IsListed(s, a.sub);
      if u == t {
        var xs := SubsOf(s.core, t);
        assert x in xs && a.sub in xs && x != a.sub;
        assert |xs| > 1;
      } else if |s.core.subs| <= 1 {
        TwoKeys(s.core.subs, t, u);
      }
    }
  }

  lemma TwoKeys(m: map<Topic, seq<Sub>>, t: Topic, u: Topic)
    requires t in m && u in m && t != u
    ensures |m| >= 2
  {
    var rest := m.Keys - {t, u};
    assert m.Keys == rest + {t, u};
  }

  lemma StandsOn(a: Action, s: State, x: Sub)
    requires Inv(s) && Enabled(a, s) && Stands(s, x) && !(a.Unlisten? && a.sub == x)
    ensures Stands(Apply(a, s), x) && Apply(a, s).held[x] == s.held[x]
  {
  }

  lemma StandingIsCovered(s: State, x: Sub)
    requires Inv(s) && Stands(s, x)
    ensures x in SubsOf(s.core, s.held[x])
    ensures s.phase == Waiting ==> s.held[x] in s.core.channels
  {
    IsListed(s, x);
  }

  /** From the moment a subscription is held until its own Unlisten, however the others come
      and go: its topic stays in the map, and is listened on whenever the loop waits. */
  lemma {:induction false} StandingTopicStays(run: seq<Action>, cut: nat, x: Sub)
    requires Legal(run) && cut <= |run|
    requires forall i :: cut <= i < |run| ==> !(run[i].Unlisten? && run[i].sub == x)
    ensures Legal(run[..cut])
    ensures var s := Outcome(run[..cut]);
            Stands(s, x) ==>
              var s' := Outcome(run);
              && Stands(s', x) && s'.held[x] == s.held[x]
              && x in SubsOf(s'.core, s.held[x])
              && (s'.phase == Waiting ==> s.held[x] in s'.core.channels)
    decreases |run|
  {
    if cut == |run| {
      assert run[..cut] == run;
    } else {
      var before := run[..|run| - 1];
      assert before[..cut] == run[..cut];
      assert forall i :: cut <= i < |before| ==> before[i] == run[i];
      StandingTopicStays(before, cut, x);
      if Stands(Outcome(run[..cut]), x) {
        InvHolds(before);
        StandsOn(run[|run| - 1], Outcome(before), x);
      }
    }
    if Stands(Outcome(run), x) {
      InvHolds(run);
      StandingIsCovered(Outcome(run), x);
    }
  }

  // ---- The subscription that cannot be given back ----

  /** An Unlisten that failed has used the subscription's only chance. */
  ghost predicate Stuck(s: State, x: Sub) {
    x in s.held && x in s.spent && x !in s.gone
  }

  lemma FailedUnlistenSticks(s: State, x: Sub, ok: bool)
    requires Inv(s) && Enabled(Unlisten(x, ok), s)
    ensures var s' := Apply(Unlisten(x, ok), s);
            Stuck(s', x) <==>
              !ok && |SubsOf(s.core, s.held[x])| == 1 && (s.core.waiting || s.core.connected)
  {
    IsListed(s, x);
  }

  /** Two steps reach such a subscription: a topic is listened on, and giving it up fails. */
  lemma StuckIsReachable() returns (run: seq<Action>)
    ensures Legal(run) && Stuck(Outcome(run), 1)
  {
    run := Extended([], Listen("a", 1, Luck(true, true)));
    InvHolds(run);
    FailedUnlistenSticks(Outcome(run), 1, false);
    run := Extended(run, Unlisten(1, false));
  }

  lemma SticksOn(a: Action, s: State, x: Sub)
    requires Inv(s) && Enabled(a, s) && Stuck(s, x)
    ensures Stuck(Apply(a, s), x) && Apply(a, s).held[x] == s.held[x]
  {
  }

  lemma StuckIsListed(s: State, x: Sub)
    requires Inv(s) && Stuck(s, x)
    ensures x in SubsOf(s.core, s.held[x])
  {
    IsCounted(s, s.held[x], x);
  }

  /** It stays in its topic's list for ever, so the topic is never given up. */
  lemma {:induction false} StuckForEver(run: seq<Action>, cut: nat, x: Sub)
    requires Legal(run) && cut <= |run|
    ensures Legal(run[..cut])
    ensures var s := Outcome(run[..cut]);
            Stuck(s, x) ==>
              && Stuck(Outcome(run), x) && Outcome(run).held[x] == s.held[x]
              && x in SubsOf(Outcome(run).core, s.held[x])
    decreases |run|
  {
    if cut == |run| {
      assert run[..cut] == run;
    } else {
      var before := run[..|run| - 1];
      assert before[..cut] == run[..cut];
      StuckForEver(before, cut, x);
      if Stuck(Outcome(run[..cut]), x) {
        InvHolds(before);
        SticksOn(run[|run| - 1], Outcome(before), x);
      }
    }
    if Stuck(Outcome(run), x) {
      InvHolds(run);
      StuckIsListed(Outcome(run), x);
    }
  }
}
