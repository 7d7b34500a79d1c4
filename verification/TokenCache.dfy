/** The API token cache and the middleware in front of every handler: tokens, and their absence,
    are remembered for a while, and callers asking for the same token share one fetch. */
module TokenCache {
  import opened Common

  /** `expireAt` is in whole seconds. */
  datatype Token = Token(id: string, expireAt: int)

  /** A remembered token, or the remembered absence of one. An entry without an expiry never
      expires. */
  datatype Entry = Entry(value: Option<Token>, expires: Option<real>)

  type Entries = map<string, Entry>

  /** One fetch that returned without an error, and what it said. */
  datatype Fetch = Fetch(key: string, begun: real, done: real, said: Option<Token>)

  function Lookup(entries: Entries, key: string, now: real): Option<Option<Token>> {
    if key !in entries then None
    else if entries[key].expires.Some? && now > entries[key].expires.value then None
    else Some(entries[key].value)
  }

  /** The entry a set makes: a zero lifetime means for ever, a negative one means nothing is
      stored. */
  function EntryFor(value: Option<Token>, ttl: real, now: real): Option<Entry> {
    if ttl < 0.0 then None
    else if ttl == 0.0 then Some(Entry(value, None))
    else Some(Entry(value, Some(now + ttl)))
  }

  /** What was remembered is the answer throughout its lifetime, and no longer: for ever under a
      zero lifetime, never under a negative one. */
  lemma RememberedFor(entries: Entries, key: string, value: Option<Token>, ttl: real, made: real, now: real)
    requires ttl >= 0.0 && made <= now
    ensures var e := EntryFor(value, ttl, made);
            && e.Some?
            && Lookup(entries[key := e.value], key, now)
               == if ttl == 0.0 || now <= made + ttl then Some(value) else None
    ensures EntryFor(value, 0.0 - ttl - 1.0, made).None?
  {
  }

  // ---- What an answer must be backed by ----

  /** The entry repeats a fetch for its key, and lives as long as the lifetime allows. */
  ghost predicate Backed(log: set<Fetch>, ttl: real, now: real, key: string, e: Entry) {
    exists f :: f in log && f.key == key && f.done <= now && EntryFor(f.said, ttl, f.done) == Some(e)
  }

  ghost predicate AllBacked(log: set<Fetch>, ttl: real, now: real, entries: Entries) {
    forall k :: k in entries ==> Backed(log, ttl, now, k, entries[k])
  }

  /** At time `at` the fetcher had said this for the key, and had said it no longer than the
      lifetime before. */
  ghost predicate Fresh(log: set<Fetch>, ttl: real, key: string, answer: Option<Token>, at: real) {
    exists f :: f in log && f.key == key && f.said == answer && f.begun <= f.done <= at
                && (ttl != 0.0 && at != f.done ==> at <= f.done + ttl)
  }

  ghost predicate WellLogged(log: set<Fetch>) {
    forall f :: f in log ==> f.begun <= f.done
  }

  lemma HitIsFresh(log: set<Fetch>, ttl: real, now: real, entries: Entries, key: string)
    requires WellLogged(log) && AllBacked(log, ttl, now, entries) && Lookup(entries, key, now).Some?
    ensures Fresh(log, ttl, key, Lookup(entries, key, now).value, now)
  {
    var f :| f in log && f.key == key && f.done <= now && EntryFor(f.said, ttl, f.done) == Some(entries[key]);
    assert f.said == entries[key].value;
  }

  lemma StaysBacked(log: set<Fetch>, later: set<Fetch>, ttl: real, now: real, until: real, key: string, e: Entry)
    requires log <= later && now <= until && Backed(log, ttl, now, key, e)
    ensures Backed(later, ttl, until, key, e)
  {
    var f :| f in log && f.key == key && f.done <= now && EntryFor(f.said, ttl, f.done) == Some(e);
    assert f in later;
  }

  // ---- The object, one caller at a time ----

  class ApiTokenCache {
    var now: real
    var entries: Entries
    const ttl: real
    ghost var log: set<Fetch>

    constructor (lifetime: real, start: real)
      ensures ttl == lifetime && now == start && entries == map[] && log == {} && Valid()
    {
      ttl, now, entries, log := lifetime, start, map[], {};
    }

    ghost predicate Valid()
      reads this
    {
      WellLogged(log) && AllBacked(log, ttl, now, entries)
    }

    /** The cache may refuse or drop any set. */
    method SetWithTTL(key: string, value: Option<Token>)
      modifies this`entries
      ensures || entries == old(entries)
              || (EntryFor(value, ttl, now).Some?
                  && entries == old(entries)[key := EntryFor(value, ttl, now).value])
    {
      var kept: bool := *;
      if kept && ttl >= 0.0 {
        entries := entries[key := Entry(value, if ttl == 0.0 then None else Some(now + ttl))];
      }
    }

    /** The fetcher: it takes its time, and fails or says a token or that there is none. */
    method AskFetcher(key: string) returns (r: Result<Option<Token>, string>)
      requires Valid()
      modifies this`now, this`log
      ensures Valid() && now >= old(now)
      ensures log == old(log) + if r.Ok? then {Fetch(key, old(now), now, r.value)} else {}
    {
      var duration: real, failed: bool, id: string, expireAt: int, found: bool := *, *, *, *, *;
      ghost var before := now;
      now := if duration < 0.0 then now else now + duration;
      forall k | k in entries ensures Backed(log, ttl, now, k, entries[k]) {
        StaysBacked(log, log, ttl, before, now, k, entries[k]);
      }
      if failed {
        return Err("cannot fetch");
      }
      r := Ok(if found then Some(Token(id, expireAt)) else None);
      ghost var was := log;
      log := log + {Fetch(key, before, now, r.value)};
      forall k | k in entries ensures Backed(log, ttl, now, k, entries[k]) {
        StaysBacked(was, log, ttl, now, now, k, entries[k]);
      }
    }

    /** A hit answers at once and changes nothing; a miss asks the fetcher once, and a failure
        is answered like an absent token but leaves the entries alone. */
    method GetToken(key: string) returns (r: Option<Token>, ghost failed: bool)
      requires Valid()
      modifies this
      ensures Valid() && now >= old(now)
      ensures !failed ==> Fresh(log, ttl, key, r, now)
      ensures key in old(entries) && (old(entries[key]).expires.Some? ==> old(now) <= old(entries[key]).expires.value) ==>
                !failed && r == old(entries[key]).value && now == old(now) && log == old(log)
      ensures failed ==> r.None? && entries == old(entries) && log == old(log)
      ensures var hit := Lookup(old(entries), key, old(now));
              if hit.Some? then !failed && r == hit.value && entries == old(entries) && log == old(log) && now == old(now)
              else !failed ==>
                     && log == old(log) + {Fetch(key, old(now), now, r)}
                     && var made := EntryFor(r, ttl, now);
                        entries == old(entries) || (made.Some? && entries == old(entries)[key := made.value])
    {
      failed := false;
      if key in entries && !(entries[key].expires.Some? && now > entries[key].expires.value) {
        HitIsFresh(log, ttl, now, entries, key);
        return entries[key].value, false;
      }
      var fetched := AskFetcher(key);
      if fetched.Err? {
        return None, true;
      }
      ghost var f := Fetch(key, old(now), now, fetched.value);
      ghost var was := entries;
      SetWithTTL(key, fetched.value);
      forall k | k in entries ensures Backed(log, ttl, now, k, entries[k]) {
        if k != key || entries == was {
          assert Backed(log, ttl, now, k, was[k]);
        } else {
          assert f in log;
        }
      }
      assert f in log;
      return fetched.value, false;
    }
  }

  // ---- The middleware ----

  datatype Request = Blank | Request(authorization: string)

  datatype Outcome = Handled(token: Option<Token>) | Refused(status: int)

  const PREFIX := "Bearer "

  /** What becomes of a request whose token was answered like this. */
  function Decision(answer: Option<Token>, now: real): (o: Outcome)
    ensures o.Handled? <==> answer.Some? && now < (answer.value.expireAt + 1) as real
    ensures o.Handled? ==> o.token == answer
    ensures o == Refused(403) <==> answer.Some? && now >= (answer.value.expireAt + 1) as real
  {
    if answer.None? then Refused(401)
    else if answer.value.expireAt < now.Floor then Refused(403)
    else Handled(answer)
  }

  /** No token, a bad header, an unknown token and an expired one each end in their own way, and
      a token reaches the handler only within the second in which it expires, or before. */
  method Authenticate(c: ApiTokenCache, request: Request) returns (o: Outcome)
    requires c.Valid()
    modifies c
    ensures c.Valid()
    ensures o == Refused(400) <==> request.Blank?
    ensures o == Handled(None) <==> request == Request("")
    ensures o.Handled? && o.token.Some? ==>
              && PREFIX <= request.authorization
              && Fresh(c.log, c.ttl, request.authorization[|PREFIX|..], o.token, c.now)
              && c.now < (o.token.value.expireAt + 1) as real
    ensures request.Request? && PREFIX <= request.authorization ==>
              var key := request.authorization[|PREFIX|..];
              var hit := Lookup(old(c.entries), key, old(c.now));
              if hit.Some? then o == Decision(hit.value, old(c.now))
              else || (o == Refused(401) && c.log == old(c.log))
                   || exists f :: && f in c.log && f.key == key && f.done == c.now
                                  && c.log == old(c.log) + {f} && o == Decision(f.said, c.now)
    ensures request.Request? && request.authorization != "" && !(PREFIX <= request.authorization) ==>
              o == Refused(401) && c.log == old(c.log) && c.entries == old(c.entries)
  {
    if request.Blank? {
      return Refused(400);
    }
    var auth := request.authorization;
    if auth == "" {
      return Handled(None);
    }
    if !(PREFIX <= auth) {
      return Refused(401);
    }
    var token, failed := c.GetToken(auth[|PREFIX|..]);
    if token.None? {
      return Refused(401);
    }
    if token.value.expireAt < c.now.Floor {
      return Refused(403);
    }
    return Handled(token);
  }

  // ---- Any number of callers ----

  type Thread = int

  /** A caller that missed is about to join a fetch, or waits for one. */
  datatype Pc = Missed(key: string) | Waiting(key: string)

  datatype Flight = Flight(begun: real, waiters: set<Thread>)

  datatype Answer = Answer(thread: Thread, key: string, at: real, value: Option<Token>, failed: bool)

  /** `pending` are the sets that are on their way into the cache. */
  datatype State = State(
    now: real, entries: Entries, pending: set<(string, Entry)>, flights: map<string, Flight>,
    threads: map<Thread, Pc>, log: set<Fetch>, answers: set<Answer>)

  const INIT := State(0.0, map[], {}, map[], map[], {}, {})

  /** A set is dropped, buffered, or, for a key already there, seen at once. */
  datatype Fate = Dropped | Buffered | Immediate

  datatype Action =
    | Elapse(duration: real)
    | Call(thread: Thread, key: string)
    | Join(thread: Thread)
    | Say(key: string, said: Option<Token>, fate: Fate)
    | Fail(key: string)
    | Land(key: string, entry: Entry)
    | Evict(key: string)

  ghost predicate Enabled(a: Action, s: State) {
    match a
    case Elapse(d) => d >= 0.0
    case Call(th, _) => th !in s.threads
    case Join(th) => th in s.threads && s.threads[th].Missed?
    case Say(k, _, fate) => k in s.flights && (fate.Immediate? ==> k in s.entries)
    case Fail(k) => k in s.flights
    case Land(k, e) => (k, e) in s.pending
    case Evict(k) => k in s.entries
  }

  /** Everyone who waits for the key's fetch gets the same answer. */
  ghost function Answered(s: State, k: string, value: Option<Token>, failed: bool): State
    requires k in s.flights
  {
    s.(flights := s.flights - {k},
       threads := s.threads - s.flights[k].waiters,
       answers := s.answers + set th | th in s.flights[k].waiters :: Answer(th, k, s.now, value, failed))
  }

  ghost function Apply(a: Action, s: State, ttl: real): State
    requires Enabled(a, s)
  {
    match a
    case Elapse(d) => s.(now := s.now + d)
    case Call(th, k) =>
      var hit := Lookup(s.entries, k, s.now);
      if hit.Some? then s.(answers := s.answers + {Answer(th, k, s.now, hit.value, false)})
      else s.(threads := s.threads[th := Missed(k)])
    case Join(th) =>
      var k := s.threads[th].key;
      var f := if k in s.flights then s.flights[k] else Flight(s.now, {});
      s.(threads := s.threads[th := Waiting(k)], flights := s.flights[k := f.(waiters := f.waiters + {th})])
    case Say(k, said, fate) =>
      var made := EntryFor(said, ttl, s.now);
      var r := Answered(s, k, said, false).(log := s.log + {Fetch(k, s.flights[k].begun, s.now, said)});
      if made.None? || fate.Dropped? then r
      else if fate.Buffered? then r.(pending := r.pending + {(k, made.value)})
      else r.(entries := r.entries[k := made.value])
    case Fail(k) => Answered(s, k, None, true)
    case Land(k, e) => s.(entries := s.entries[k := e], pending := s.pending - {(k, e)})
    case Evict(k) => s.(entries := s.entries - {k})
  }

  ghost predicate Inv(s: State, ttl: real) {
    && WellLogged(s.log)
    && AllBacked(s.log, ttl, s.now, s.entries)
    && (forall p :: p in s.pending ==> Backed(s.log, ttl, s.now, p.0, p.1))
    && (forall k :: k in s.flights ==> s.flights[k].begun <= s.now)
    && (forall a :: a in s.answers && !a.failed ==> Fresh(s.log, ttl, a.key, a.value, a.at))
    && (forall a :: a in s.answers && a.failed ==> a.value.None?)
    && (forall f :: f in s.log ==> f.done <= s.now)
  }

  /** Whoever waits for a fetch is counted among its waiters, and nobody else. */
  ghost predicate WaitersFit(s: State) {
    && (forall k, th :: k in s.flights && th in s.flights[k].waiters ==> th in s.threads && s.threads[th] == Waiting(k))
    && (forall th :: th in s.threads && s.threads[th].Waiting? ==>
          s.threads[th].key in s.flights && th in s.flights[s.threads[th].key].waiters)
  }

  lemma FreshStays(log: set<Fetch>, later: set<Fetch>, ttl: real, key: string, v: Option<Token>, at: real)
    requires log <= later && Fresh(log, ttl, key, v, at)
    ensures Fresh(later, ttl, key, v, at)
  {
    var f :| f in log && f.key == key && f.said == v && f.begun <= f.done <= at
             && (ttl != 0.0 && at != f.done ==> at <= f.done + ttl);
    assert f in later;
  }

  /** What was backed and fresh before a step still is. */
  lemma OldStays(s: State, s': State, ttl: real)
    requires Inv(s, ttl) && s.log <= s'.log && s.now <= s'.now
    ensures AllBacked(s'.log, ttl, s'.now, s.entries)
    ensures forall p :: p in s.pending ==> Backed(s'.log, ttl, s'.now, p.0, p.1)
    ensures forall a :: a in s.answers && !a.failed ==> Fresh(s'.log, ttl, a.key, a.value, a.at)
  {
    forall k | k in s.entries ensures Backed(s'.log, ttl, s'.now, k, s.entries[k]) {
      StaysBacked(s.log, s'.log, ttl, s.now, s'.now, k, s.entries[k]);
    }
    forall p | p in s.pending ensures Backed(s'.log, ttl, s'.now, p.0, p.1) {
      StaysBacked(s.log, s'.log, ttl, s.now, s'.now, p.0, p.1);
    }
    forall a | a in s.answers && !a.failed ensures Fresh(s'.log, ttl, a.key, a.value, a.at) {
      FreshStays(s.log, s'.log, ttl, a.key, a.value, a.at);
    }
  }

  lemma SayKeepsInv(s: State, ttl: real, k: string, said: Option<Token>, fate: Fate)
    requires Inv(s, ttl) && Enabled(Say(k, said, fate), s)
    ensures Inv(Apply(Say(k, said, fate), s, ttl), ttl)
  {
    var s' := Apply(Say(k, said, fate), s, ttl);
    var f := Fetch(k, s.flights[k].begun, s.now, said);
    OldStays(s, s', ttl);
    assert f in s'.log;
    assert Fresh(s'.log, ttl, k, said, s.now);
    var made := EntryFor(said, ttl, s.now);
    assert made.Some? ==> Backed(s'.log, ttl, s'.now, k, made.value);
  }

  lemma StepKeepsInv(a: Action, s: State, ttl: real)
    requires Inv(s, ttl) && Enabled(a, s)
    ensures Inv(Apply(a, s, ttl), ttl)
  {
    OldStays(s, Apply(a, s, ttl), ttl);
    match a {
      case Say(k, said, fate) => SayKeepsInv(s, ttl, k, said, fate);
      case Call(th, k) =>
        if Lookup(s.entries, k, s.now).Some? {
          HitIsFresh(s.log, ttl, s.now, s.entries, k);
        }
      case Land(k, e) => assert Backed(s.log, ttl, s.now, (k, e).0, (k, e).1);
      case _ =>
    }
  }

  lemma StepKeepsWaiters(a: Action, s: State, ttl: real)
    requires WaitersFit(s) && Enabled(a, s)
    ensures WaitersFit(Apply(a, s, ttl))
  {
    var s' := Apply(a, s, ttl);
    forall k, th | k in s'.flights && th in s'.flights[k].waiters
      ensures th in s'.threads && s'.threads[th] == Waiting(k)
    {
      assert k in s.flights && th in s.flights[k].waiters ==> th in s.threads && s.threads[th] == Waiting(k);
    }
    forall th | th in s'.threads && s'.threads[th].Waiting?
      ensures s'.threads[th].key in s'.flights && th in s'.flights[s'.threads[th].key].waiters
    {
      assert a != Join(th) ==> th in s.threads && s.threads[th] == s'.threads[th];
    }
  }

  // ---- Whole runs ----

  ghost predicate Legal(run: seq<Action>, ttl: real)
    decreases |run|, 0
  {
    run != [] ==>
      Legal(run[..|run| - 1], ttl) && Enabled(run[|run| - 1], Final(run[..|run| - 1], ttl))
  }

  ghost function Final(run: seq<Action>, ttl: real): State
    requires Legal(run, ttl)
    decreases |run|, 1
  {
    if run == [] then INIT else Apply(run[|run| - 1], Final(run[..|run| - 1], ttl), ttl)
  }

  lemma {:induction false} InvHolds(run: seq<Action>, ttl: real)
    requires Legal(run, ttl)
    ensures Inv(Final(run, ttl), ttl) && WaitersFit(Final(run, ttl))
  {
    if run == [] {
    } else {
      InvHolds(run[..|run| - 1], ttl);
      StepKeepsInv(run[|run| - 1], Final(run[..|run| - 1], ttl), ttl);
      StepKeepsWaiters(run[|run| - 1], Final(run[..|run| - 1], ttl), ttl);
    }
  }

  /** With a lifetime other than zero, every answer that is not a failure is what the fetcher said
      for that key in a fetch that ended at most the lifetime earlier. */
  lemma AnswersAreFresh(run: seq<Action>, ttl: real, a: Answer)
    requires Legal(run, ttl) && a in Final(run, ttl).answers && !a.failed && ttl != 0.0
    ensures exists f :: f in Final(run, ttl).log && f.key == a.key && f.said == a.value
                        && f.done <= a.at && a.at - f.begun <= (if ttl > 0.0 then ttl else 0.0) + (f.done - f.begun)
  {
    InvHolds(run, ttl);
    var log := Final(run, ttl).log;
    assert Fresh(log, ttl, a.key, a.value, a.at);
    var f :| f in log && f.key == a.key && f.said == a.value && f.begun <= f.done <= a.at
             && (ttl != 0.0 && a.at != f.done ==> a.at <= f.done + ttl);
    assert a.at <= f.done + (if ttl > 0.0 then ttl else 0.0);
  }

  /** If from some moment on the fetcher says the same for a key, then so do all answers given
      later than a lifetime after that moment: a revoked token is forgotten. */
  lemma RevocationTakesHold(run: seq<Action>, ttl: real, key: string, since: real, v: Option<Token>, a: Answer)
    requires Legal(run, ttl) && ttl > 0.0
    requires forall f :: f in Final(run, ttl).log && f.key == key && f.done >= since ==> f.said == v
    requires a in Final(run, ttl).answers && a.key == key && !a.failed && a.at >= since + ttl
    ensures a.value == v
  {
    AnswersAreFresh(run, ttl, a);
  }

  // ---- Which lifetimes bound the staleness ----

  /** Every answer of the run that is no failure was said in a fetch that ended at most `bound`
      earlier. */
  ghost predicate Within(s: State, bound: real) {
    forall a :: a in s.answers && !a.failed ==>
      exists f :: f in s.log && f.key == a.key && f.said == a.value && f.done <= a.at <= f.done + bound
  }

  ghost predicate StalenessBounded(ttl: real) {
    exists bound: real :: BoundedBy(ttl, bound)
  }

  ghost predicate BoundedBy(ttl: real, bound: real) {
    forall run :: Legal(run, ttl) ==> Within(Final(run, ttl), bound)
  }

  lemma Extend(run: seq<Action>, a: Action, ttl: real)
    requires Legal(run, ttl) && Enabled(a, Final(run, ttl))
    ensures Legal(run + [a], ttl) && Final(run + [a], ttl) == Apply(a, Final(run, ttl), ttl)
  {
    var longer := run + [a];
    assert longer[..|longer| - 1] == run && longer[|longer| - 1] == a;
  }

  /** One fetch fills the cache under a zero lifetime, and nothing evicts its entry. */
  lemma Filled(key: string) returns (run: seq<Action>)
    ensures Legal(run, 0.0)
    ensures var s := Final(run, 0.0);
            && s.threads == map[] && key in s.entries && s.entries[key] == Entry(None, None)
            && s.log == {Fetch(key, s.now, s.now, None)}
  {
    var call, join, say, land := Call(1, key), Join(1), Say(key, None, Buffered), Land(key, Entry(None, None));
    run := [];
    Extend(run, call, 0.0);
    run := run + [call];
    Extend(run, join, 0.0);
    run := run + [join];
    Extend(run, say, 0.0);
    run := run + [say];
    assert Final(run, 0.0).threads == map[];
    Extend(run, land, 0.0);
    run := run + [land];
  }

  /** Under a zero lifetime a run exists that answers from a fetch older than any bound. */
  lemma StaleAnswer(bound: real) returns (run: seq<Action>, a: Answer)
    ensures Legal(run, 0.0) && a in Final(run, 0.0).answers && !a.failed
    ensures forall f :: f in Final(run, 0.0).log ==> a.at > f.done + bound
  {
    var wait := if bound < 0.0 then 0.0 else bound + 1.0;
    run := Filled("k");
    var s := Final(run, 0.0);
    Extend(run, Elapse(wait), 0.0);
    run := run + [Elapse(wait)];
    Extend(run, Call(2, "k"), 0.0);
    run := run + [Call(2, "k")];
    a := Answer(2, "k", s.now + wait, None, false);
  }

  /** Some bound on staleness holds for all answers of all runs exactly when the lifetime is not
      zero. */
  lemma BoundedExactlyWithLifetime(ttl: real)
    ensures StalenessBounded(ttl) <==> ttl != 0.0
  {
    if ttl == 0.0 {
      forall bound: real ensures !BoundedBy(ttl, bound) {
        var run, a := StaleAnswer(bound);
        assert !Within(Final(run, ttl), bound);
      }
    } else {
      var bound := if ttl > 0.0 then ttl else 0.0;
      forall run | Legal(run, ttl) ensures Within(Final(run, ttl), bound) {
        AnswersAreWithin(run, ttl, bound);
      }
      assert BoundedBy(ttl, bound);
    }
  }

  lemma AnswersAreWithin(run: seq<Action>, ttl: real, bound: real)
    requires Legal(run, ttl) && ttl != 0.0 && bound == if ttl > 0.0 then ttl else 0.0
    ensures Within(Final(run, ttl), bound)
  {
    var s := Final(run, ttl);
    forall a | a in s.answers && !a.failed
      ensures exists f :: f in s.log && f.key == a.key && f.said == a.value && f.done <= a.at <= f.done + bound
    {
      AnswersAreFresh(run, ttl, a);
    }
  }

  /** Whatever the cache holds was said by the fetcher: a failed fetch is never remembered, and
      answers all its waiters with no token. */
  lemma FailuresAreNotCached(run: seq<Action>, ttl: real, k: string)
    requires Legal(run, ttl) && Enabled(Fail(k), Final(run, ttl))
    ensures var s := Final(run, ttl);
            var s' := Apply(Fail(k), s, ttl);
            && s'.entries == s.entries && s'.pending == s.pending && s'.log == s.log
            && (forall th :: th in s.threads && s.threads[th] == Waiting(k) ==>
                  th !in s'.threads && Answer(th, k, s.now, None, true) in s'.answers)
    ensures forall x :: x in Final(run, ttl).entries ==>
              exists f :: f in Final(run, ttl).log && f.key == x && f.said == Final(run, ttl).entries[x].value
  {
    InvHolds(run, ttl);
    var s := Final(run, ttl);
    forall x | x in s.entries ensures exists f :: f in s.log && f.key == x && f.said == s.entries[x].value {
      assert Backed(s.log, ttl, s.now, x, s.entries[x]);
    }
  }
}
