/** The internal benchmark probe: a process-wide flag read once from the
    environment, a scoped timer and a one-shot event logger that append to the
    log only while the flag is on. The environment and the clock are inputs. */
module Instrumentation {

  import opened Optional

  /** `std::uint64_t` and `std::size_t`. */
  const U64_RANGE: nat := 0x1_0000_0000_0000_0000
  type U64 = x: int | 0 <= x < U64_RANGE

  const BENCH_VARIABLE: string := "VSOMEIP_BENCH_INTERNAL"

  /** The process environment at the moment of a `getenv` call. */
  type Environment = map<string, string>

  function GetEnv(env: Environment, name: string): Option<string> {
    if name in env then Some(env[name]) else None
  }

  /** The cache value meaning "not read yet". */
  const UNSET: int := -1

  /** What the first call of `enabled()` stores: 1 iff the variable is set to exactly "1". */
  function FlagFromEnv(env: Environment): (f: int)
    ensures f == 0 || f == 1
    ensures f == 1 <==> BENCH_VARIABLE in env && env[BENCH_VARIABLE] == "1"
  {
    var e := GetEnv(env, BENCH_VARIABLE);
    if e.Some? && e.value == "1" then 1 else 0
  }

  /** The cache after one call of `enabled()` made while the environment is `env`. */
  function CacheAfter(st: int, env: Environment): int {
    if st == UNSET then FlagFromEnv(env) else st
  }

  /** The cache after a series of calls, the i-th seeing environment `envs[i]`. */
  function CacheAfterCalls(st: int, envs: seq<Environment>): int
    decreases |envs|
  {
    if envs == [] then st else CacheAfterCalls(CacheAfter(st, envs[0]), envs[1..])
  }

  /** What each call in such a series returns. */
  function Answers(st: int, envs: seq<Environment>): (r: seq<bool>)
    ensures |r| == |envs|
    decreases |envs|
  {
    if envs == [] then []
    else
      var next := CacheAfter(st, envs[0]);
      [next == 1] + Answers(next, envs[1..])
  }

  /** Once set, the cache never changes, whatever the environment holds later. */
  lemma {:induction false} SetCacheIsStable(st: int, envs: seq<Environment>)
    requires st != UNSET
    ensures CacheAfterCalls(st, envs) == st
    ensures forall k :: 0 <= k < |envs| ==> Answers(st, envs)[k] == (st == 1)
    decreases |envs|
  {
    if envs != [] {
      SetCacheIsStable(st, envs[1..]);
    }
  }

  /** First read wins: the cache ends up holding what the first call read, and
      every call returns that same answer. */
  lemma FirstReadWins(envs: seq<Environment>)
    requires |envs| > 0
    ensures CacheAfterCalls(UNSET, envs) == FlagFromEnv(envs[0])
    ensures forall k :: 0 <= k < |envs| ==> Answers(UNSET, envs)[k] == (FlagFromEnv(envs[0]) == 1)
  {
    SetCacheIsStable(FlagFromEnv(envs[0]), envs[1..]);
  }

  /** Unsigned 64-bit `now - start`. */
  function Elapsed(now: U64, start: U64): (r: U64)
    ensures start <= now ==> r == now - start
    ensures now < start ==> r == now - start + U64_RANGE
  {
    (now - start) % U64_RANGE
  }

  /** One line of the log: name, nanoseconds, bytes. */
  datatype Record = Record(name: string, ns: U64, bytes: U64)

  /** What a `scope_timer` keeps between its constructor and its destructor. */
  datatype Timer = Timer(name: string, start: U64, bytes: U64)

  /** The `scope_timer` constructor: cache after its `enabled()` call, and the timer. */
  function OpenTimer(st: int, env: Environment, name: string, bytes: U64, clock: U64): (int, Timer) {
    var st1 := CacheAfter(st, env);
    (st1, Timer(name, if st1 == 1 then clock else 0, bytes))
  }

  /** The `scope_timer` destructor: cache and log after it. */
  function CloseTimer(st: int, log: seq<Record>, t: Timer, env: Environment, clock: U64): (int, seq<Record>) {
    var st1 := CacheAfter(st, env);
    (st1, if st1 == 1 then log + [Record(t.name, Elapsed(clock, t.start), t.bytes)] else log)
  }

  /** `log_event`: cache and log after it. */
  function EventStep(st: int, log: seq<Record>, name: string, ns: U64, bytes: U64, env: Environment): (int, seq<Record>) {
    var st1 := CacheAfter(st, env);
    (st1, if st1 == 1 then log + [Record(name, ns, bytes)] else log)
  }

  /** Holds the `enabled()` cache and the log the probe writes to. */
  class BenchProbe {
    var st: int
    var log: seq<Record>

    ghost predicate Valid()
      reads this
    {
      st == UNSET || st == 0 || st == 1
    }

    constructor ()
      ensures Valid() && st == UNSET && log == []
    {
      st, log := UNSET, [];
    }

    /** `enabled()`: reads the environment only while the cache is unset. */
    method Enabled(env: Environment) returns (on: bool)
      modifies this`st
      ensures st == CacheAfter(old(st), env)
      ensures old(st) != UNSET ==> st == old(st)
      ensures old(st) == UNSET ==> (st == 1 <==> BENCH_VARIABLE in env && env[BENCH_VARIABLE] == "1")
      ensures on <==> st == 1
      ensures old(Valid()) ==> Valid() && st != UNSET
    {
      if st == UNSET {
        var e := GetEnv(env, BENCH_VARIABLE);
        st := if e.Some? && e.value == "1" then 1 else 0;
      }
      on := st == 1;
    }

    /** `log_event`: one record with the given values iff enabled. */
    method LogEvent(name: string, ns: U64, bytes: U64, env: Environment)
      modifies this
      ensures (st, log) == EventStep(old(st), old(log), name, ns, bytes, env)
      ensures st == CacheAfter(old(st), env)
      ensures log == if st == 1 then old(log) + [Record(name, ns, bytes)] else old(log)
      ensures old(Valid()) ==> Valid() && st != UNSET
    {
      var on := Enabled(env);
      if on {
        log := log + [Record(name, ns, bytes)];
      }
    }
  }

  /** `scope_timer`: constructed at clock reading `openClock`, destroyed later. */
  class ScopeTimer {
    const probe: BenchProbe
    const name: string
    const start: U64
    const bytes: U64
    ghost const openClock: U64

    /** The state the constructor leaves: the cache is set, and the start time is
        the opening clock reading when enabled and 0 otherwise. */
    ghost predicate Valid()
      reads this, probe
    {
      (probe.st == 0 || probe.st == 1) &&
      start == if probe.st == 1 then openClock else 0
    }

    constructor (probe: BenchProbe, name: string, env: Environment, clock: U64, bytes: U64 := 0)
      modifies probe`st
      ensures this.probe == probe && this.name == name && this.bytes == bytes && openClock == clock
      ensures (probe.st, Timer(name, start, bytes)) == OpenTimer(old(probe.st), env, name, bytes, clock)
      ensures probe.st == CacheAfter(old(probe.st), env)
      ensures start == if probe.st == 1 then clock else 0
      ensures old(probe.Valid()) ==> Valid()
    {
      var on := probe.Enabled(env);
      this.probe := probe;
      this.name := name;
      this.bytes := bytes;
      openClock := clock;
      start := if on then clock else 0;
    }

    /** The destructor, run at clock reading `clock`. */
    method Destroy(env: Environment, clock: U64)
      requires Valid()
      modifies probe
      ensures (probe.st, probe.log) == CloseTimer(old(probe.st), old(probe.log), Timer(name, start, bytes), env, clock)
      ensures probe.st == old(probe.st)
      ensures probe.log == if probe.st == 1
                           then old(probe.log) + [Record(name, Elapsed(clock, start), bytes)]
                           else old(probe.log)
      ensures probe.st == 1 && openClock <= clock ==> Elapsed(clock, start) == clock - openClock
    {
      var on := probe.Enabled(env);
      if on {
        probe.log := probe.log + [Record(name, Elapsed(clock, start), bytes)];
      }
    }
  }

  /** One call on the probe, with the environment its `enabled()` call sees and
      the clock reading it takes: the constructor and the destructor of the
      `scope_timer` named `id`, or a `log_event`. Scopes may nest and interleave. */
  datatype Call =
    | Open(id: nat, name: string, bytes: U64, env: Environment, clock: U64)
    | Close(id: nat, env: Environment, clock: U64)
    | Event(name: string, ns: U64, bytes: U64, env: Environment)

  /** The cache, the live timers and the log. */
  datatype Probe = Probe(st: int, timers: map<nat, Timer>, log: seq<Record>)

  /** One call, built from the same steps the class methods are proved against.
      A destructor of a timer that is not live (which the source never runs)
      only makes its `enabled()` call. */
  function Step(p: Probe, c: Call): Probe {
    match c
    case Open(id, n, b, e, t) =>
      var r := OpenTimer(p.st, e, n, b, t);
      Probe(r.0, p.timers[id := r.1], p.log)
    case Close(id, e, t) =>
      if id in p.timers then
        var r := CloseTimer(p.st, p.log, p.timers[id], e, t);
        Probe(r.0, p.timers - {id}, r.1)
      else p.(st := CacheAfter(p.st, e))
    case Event(n, ns, b, e) =>
      var r := EventStep(p.st, p.log, n, ns, b, e);
      Probe(r.0, p.timers, r.1)
  }

  function RunProbe(p: Probe, calls: seq<Call>): Probe
    decreases |calls|
  {
    if calls == [] then p else RunProbe(Step(p, calls[0]), calls[1..])
  }

  /** The records an enabled probe writes, defined without the cache: a timer
      remembers its opening clock reading, and each destructor of a live timer
      and each event emits one record. */
  function Emitted(timers: map<nat, Timer>, calls: seq<Call>): seq<Record>
    decreases |calls|
  {
    if calls == [] then []
    else match calls[0]
      case Open(id, n, b, _, t) => Emitted(timers[id := Timer(n, t, b)], calls[1..])
      case Close(id, _, t) =>
        (if id in timers then [Record(timers[id].name, Elapsed(t, timers[id].start), timers[id].bytes)] else [])
        + Emitted(timers - {id}, calls[1..])
      case Event(n, ns, b, _) => [Record(n, ns, b)] + Emitted(timers, calls[1..])
  }

  /** Every destructor belongs to a timer that is live at that point. */
  predicate WellNested(live: set<nat>, calls: seq<Call>)
    decreases |calls|
  {
    calls == [] ||
    match calls[0]
    case Open(id, _, _, _, _) => WellNested(live + {id}, calls[1..])
    case Close(id, _, _) => id in live && WellNested(live - {id}, calls[1..])
    case Event(_, _, _, _) => WellNested(live, calls[1..])
  }

  /** The number of instrumented scopes closed plus the number of events. */
  function Emitting(calls: seq<Call>): nat
    decreases |calls|
  {
    if calls == [] then 0
    else (if calls[0].Open? then 0 else 1) + Emitting(calls[1..])
  }

  /** A disabled probe writes nothing. */
  lemma {:induction false} DisabledEmitsNothing(p: Probe, calls: seq<Call>)
    requires p.st == 0
    ensures RunProbe(p, calls).st == 0 && RunProbe(p, calls).log == p.log
    decreases |calls|
  {
    if calls != [] {
      DisabledEmitsNothing(Step(p, calls[0]), calls[1..]);
    }
  }

  /** An enabled probe appends exactly the records `Emitted` lists, whatever the
      environment holds, and stays enabled. */
  lemma {:induction false} EnabledEmitsRecords(p: Probe, calls: seq<Call>)
    requires p.st == 1
    ensures RunProbe(p, calls).st == 1
    ensures RunProbe(p, calls).log == p.log + Emitted(p.timers, calls)
    decreases |calls|
  {
    if calls == [] {
      assert p.log + [] == p.log;
    } else {
      var q := Step(p, calls[0]);
      EnabledEmitsRecords(q, calls[1..]);
      match calls[0]
      case Open(id, n, b, e, t) =>
        assert q.timers == p.timers[id := Timer(n, t, b)] && q.log == p.log;
      case Close(id, e, t) =>
        var head := if id in p.timers
                    then [Record(p.timers[id].name, Elapsed(t, p.timers[id].start), p.timers[id].bytes)]
                    else [];
        assert q.timers == p.timers - {id} && q.log == p.log + head;
        assert Emitted(p.timers, calls) == head + Emitted(p.timers - {id}, calls[1..]);
        assert p.log + head + Emitted(q.timers, calls[1..]) == p.log + (head + Emitted(q.timers, calls[1..]));
      case Event(n, ns, b, e) =>
        assert q.log == p.log + [Record(n, ns, b)];
        assert Emitted(p.timers, calls) == [Record(n, ns, b)] + Emitted(p.timers, calls[1..]);
        assert q.log + Emitted(p.timers, calls[1..]) == p.log + Emitted(p.timers, calls);
    }
  }

  /** In a well-nested run, exactly one record is emitted per closed scope and
      per event. */
  lemma {:induction false} EmittedCount(timers: map<nat, Timer>, calls: seq<Call>)
    requires WellNested(timers.Keys, calls)
    ensures |Emitted(timers, calls)| == Emitting(calls)
    decreases |calls|
  {
    if calls != [] {
      match calls[0]
      case Open(id, n, b, _, t) =>
        var next := timers[id := Timer(n, t, b)];
        assert next.Keys == timers.Keys + {id};
        EmittedCount(next, calls[1..]);
      case Close(id, _, t) =>
        assert (timers - {id}).Keys == timers.Keys - {id};
        EmittedCount(timers - {id}, calls[1..]);
      case Event(_, _, _, _) =>
        EmittedCount(timers, calls[1..]);
    }
  }

  /** From process start, whatever kind of call comes first decides: if its
      `enabled()` read "1", the log ends up holding exactly `Emitted` (one record
      per closed scope and per event, in order); otherwise it stays empty. */
  lemma RecordsFromStart(calls: seq<Call>)
    requires |calls| > 0
    ensures var flag := FlagFromEnv(calls[0].env);
      RunProbe(Probe(UNSET, map[], []), calls).log == if flag == 1 then Emitted(map[], calls) else []
    ensures WellNested({}, calls) && FlagFromEnv(calls[0].env) == 1 ==>
      |RunProbe(Probe(UNSET, map[], []), calls).log| == Emitting(calls)
  {
    var p0 := Probe(UNSET, map[], []);
    var flag := FlagFromEnv(calls[0].env);
    var q := Step(p0, calls[0]);
    assert RunProbe(p0, calls) == RunProbe(q, calls[1..]);
    assert q.st == flag;
    if flag == 1 {
      EnabledEmitsRecords(q, calls[1..]);
      match calls[0]
      case Open(id, n, b, e, t) =>
        assert q.timers == map[][id := Timer(n, t, b)] && q.log == [];
      case Close(id, e, t) =>
        assert q.timers == map[] - {id} && q.log == [];
      case Event(n, ns, b, e) =>
        assert q.log == [Record(n, ns, b)];
    } else {
      DisabledEmitsNothing(q, calls[1..]);
    }
    if WellNested({}, calls) {
      var empty: map<nat, Timer> := map[];
      assert empty.Keys == {};
      EmittedCount(empty, calls);
    }
  }

  /** A scope opened while the variable is "1" encloses an event run after the
      variable is gone: the event is logged first, then the scope. */
  lemma NestedScopeIsLoggedAfterInnerEvent(a: string, b: string, t0: U64, t1: U64, ns: U64)
    requires t0 <= t1
    ensures var on := map[BENCH_VARIABLE := "1"];
      var off: Environment := map[];
      RunProbe(Probe(UNSET, map[], []), [Open(7, a, 0, on, t0), Event(b, ns, 0, off), Close(7, off, t1)]).log
        == [Record(b, ns, 0), Record(a, t1 - t0, 0)]
  {
    var on := map[BENCH_VARIABLE := "1"];
    var off: Environment := map[];
    var calls := [Open(7, a, 0, on, t0), Event(b, ns, 0, off), Close(7, off, t1)];
    assert FlagFromEnv(on) == 1;
    RecordsFromStart(calls);
    var m: map<nat, Timer> := map[][7 := Timer(a, t0, 0)];
    assert calls[1..] == [Event(b, ns, 0, off), Close(7, off, t1)];
    assert calls[1..][1..] == [Close(7, off, t1)];
    assert Emitted(m, [Close(7, off, t1)]) == [Record(a, t1 - t0, 0)] + Emitted(m - {7}, []);
    assert Emitted(m, calls[1..]) == [Record(b, ns, 0)] + Emitted(m, [Close(7, off, t1)]);
    assert Emitted(map[], calls) == Emitted(m, calls[1..]);
  }
}
