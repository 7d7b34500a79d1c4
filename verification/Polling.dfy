/** One long poll: query, wait for the remaining whole seconds or a wake-up, query again.
    Queries take no time and timers are exact; the clock is read in whole seconds. */
module Polling {
  import opened Common

  datatype Query = QueryError | NoJob | GotJob(id: int)

  datatype Response = Found(id: int) | NotFound | ServerError

  datatype Ending = Woken | TimedOut | DispatcherClosed

  datatype Event = Asked(answer: Query) | Waited(ending: Ending)

  datatype Entry = Entry(at: real, event: Event)

  function Clamp(value: int, min: int, max: int): int {
    if value < min then min else if value > max then max else value
  }

  const DEFAULT_WAIT_SEC := 10

  /** The seconds a poll waits: the caller's wish, or ten, kept between 1 and 60. */
  function WaitSeconds(wish: Option<int>): (w: int)
    ensures 1 <= w <= 60
    ensures wish.None? ==> w == 10
    ensures wish.Some? && 1 <= wish.value <= 60 ==> w == wish.value
    ensures wish.Some? && wish.value < 1 ==> w == 1
    ensures wish.Some? && wish.value > 60 ==> w == 60
  {
    Clamp(if wish.Some? then wish.value else DEFAULT_WAIT_SEC, 1, 60)
  }

  /** The clock, the table and the dispatcher around one poll. */
  class Surroundings {
    var now: real
    /** How many tokens, fresh or stale, will still reach this poll. */
    var tokens: nat
    /** Every query with its answer and every wait with its ending, each at the time it ended. */
    ghost var history: seq<Entry>

    method QueryTable() returns (q: Query)
      modifies this`history
      ensures history == old(history) + [Entry(now, Asked(q))]
    {
      var failed: bool, found: bool, id: int := *, *, *;
      q := if failed then QueryError else if found then GotJob(id) else NoJob;
      history := history + [Entry(now, Asked(q))];
    }

    /** Waits until a token arrives or the dispatcher closes, at the latest until the timer. */
    method WaitFor(seconds: int) returns (e: Ending)
      requires seconds > 0
      modifies this`now, this`tokens, this`history
      ensures history == old(history) + [Entry(now, Waited(e))]
      ensures old(now) <= now <= old(now) + seconds as real
      ensures e.TimedOut? ==> now == old(now) + seconds as real && tokens == old(tokens)
      ensures e.Woken? ==> tokens < old(tokens)
      ensures e.DispatcherClosed? ==> tokens == old(tokens)
    {
      var until: real, closed: bool, woken: bool := *, *, *;
      if 0.0 <= until <= seconds as real && (closed || (woken && tokens > 0)) {
        now := now + until;
        if closed {
          e := DispatcherClosed;
        } else {
          tokens := tokens - 1;
          e := Woken;
        }
      } else {
        now := now + seconds as real;
        e := TimedOut;
      }
      history := history + [Entry(now, Waited(e))];
    }
  }

  /** What one poll does between entry `from` of the history and its end: it asks first; only an
      empty answer is followed by anything, and then by a wait; a wait that did not end with the
      closing is followed at once by the next question, which is the last one after the timer. */
  ghost predicate Polls(history: seq<Entry>, from: nat, begun: real) {
    && from < |history| && history[from].event.Asked? && history[from].at == begun
    && (forall i :: from <= i < |history| - 1 && history[i].event.Asked? ==>
          history[i].event.answer == NoJob && history[i + 1].event.Waited?)
    && (forall i :: from <= i < |history| && history[i].event.Waited? && i + 1 < |history| ==>
          && history[i].event.ending != DispatcherClosed
          && history[i + 1].event.Asked? && history[i + 1].at == history[i].at
          && (history[i].event.ending == TimedOut ==> i + 2 == |history|))
  }

  lemma AsksNext(history: seq<Entry>, from: nat, begun: real, now: real, q: Query)
    requires from <= |history|
    requires if |history| == from then now == begun
             else Polls(history, from, begun)
                  && history[|history| - 1] in {Entry(now, Waited(Woken)), Entry(now, Waited(TimedOut))}
    ensures Polls(history + [Entry(now, Asked(q))], from, begun)
  {
  }

  lemma WaitsNext(history: seq<Entry>, from: nat, begun: real, now: real, e: Ending)
    requires Polls(history, from, begun) && history[|history| - 1].event == Asked(NoJob)
    requires |history| > from + 1 ==> history[|history| - 2].event != Waited(TimedOut)
    ensures Polls(history + [Entry(now, Waited(e))], from, begun)
  {
  }

  /** The polling loop. Whatever the tokens do, a poll without a job answers 404 within a
      second of its waiting time, right after a query that found nothing. */
  method GetNextInvocation(env: Surroundings, wish: Option<int>) returns (r: Response)
    modifies env
    ensures var w := WaitSeconds(wish) as real;
            r.NotFound? ==> old(env.now) + w - 1.0 < env.now < old(env.now) + w + 1.0
    ensures env.now < old(env.now) + WaitSeconds(wish) as real + 1.0
    ensures old(env.history) <= env.history && Polls(env.history, |old(env.history)|, old(env.now))
    ensures var last := env.history[|env.history| - 1];
            && last.at == env.now
            && (forall id :: r == Found(id) <==> last.event == Asked(GotJob(id)))
            && (r == NotFound <==> last.event == Asked(NoJob))
            && (r == ServerError <==> last.event in {Asked(QueryError), Waited(DispatcherClosed)})
  {
    var waitSec := WaitSeconds(wish);
    var startTime := env.now.Floor;
    ghost var begin := env.now;
    ghost var from := |env.history|;
    while true
      invariant startTime == begin.Floor && begin <= env.now < begin + waitSec as real + 1.0
      invariant old(env.history) <= env.history
      invariant if |env.history| == from then env.now == begin
                else
                  var last := env.history[|env.history| - 1];
                  && last in {Entry(env.now, Waited(Woken)), Entry(env.now, Waited(TimedOut))}
                  && (last.event == Waited(TimedOut) ==> env.now.Floor == startTime + waitSec)
                  && Polls(env.history, from, begin)
      decreases env.tokens, startTime + waitSec - env.now.Floor
    {
      ghost var before := env.now;
      ghost var was := env.history;
      var q := env.QueryTable();
      AsksNext(was, from, begin, env.now, q);
      if q.QueryError? {
        return ServerError;
      }
      if q.GotJob? {
        return Found(q.id);
      }
      var remainingSec := waitSec - (env.now.Floor - startTime);
      if remainingSec <= 0 {
        break;
      }
      ghost var asked := env.history;
      var e := env.WaitFor(remainingSec);
      assert |asked| > from + 1 ==> asked[|asked| - 2] == was[|was| - 1];
      WaitsNext(asked, from, begin, env.now, e);
      assert before.Floor as real <= before < before.Floor as real + 1.0;
      if e.DispatcherClosed? {
        return ServerError;
      }
    }
    return NotFound;
  }
}
