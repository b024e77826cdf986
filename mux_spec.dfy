/** The limiter registry of lib/pothole-mux.js as a value: named limiters,
    the set of names whose limiter has not been started through the registry
    yet, and the transition each registry operation performs. The class
    `PotholeMux.PotholeMux` is proved against these functions. */
module MuxSpec {
  import opened Wrappers
  import opened LimiterSpec

  /** `limiters` is the `_potholes` dictionary; `pending` holds the keys of
      the `_start` dictionary (whose values are always 1). */
  datatype Mux = Mux(limiters: map<string, Limiter>, pending: set<string>)

  /** The errors the registry raises: a rejected window (the limiter
      constructor's error, passed through), a duplicate label, an unknown
      label. */
  datatype MuxError = WindowRejected(cause: Error) | PotholeExists(name: string) | PotholeMissing(name: string)

  function Empty(): Mux
  {
    Mux(map[], {})
  }

  /** A pending start only ever refers to a registered limiter. */
  predicate WellFormed(m: Mux)
  {
    m.pending <= m.limiters.Keys
  }

  /** `_checkForPothole(label)`. */
  function Lookup(m: Mux, name: string): Result<Limiter, MuxError>
  {
    if name in m.limiters then Success(m.limiters[name]) else Failure(PotholeMissing(name))
  }

  /** `add(label, options)`: a duplicate name is refused before the options
      are looked at; a fresh name gets a new, unstarted limiter and a pending
      start. */
  function Added(m: Mux, name: string, options: WindowOptions): Result<Mux, MuxError>
  {
    if name in m.limiters then Failure(PotholeExists(name))
    else
      match ParseWindow(options)
      case Failure(e) => Failure(WindowRejected(e))
      case Success(w) => Success(Mux(m.limiters[name := Initial(w)], m.pending + {name}))
  }

  /** `enqueue(label, func)`: start the limiter if its start is pending and
      clear the mark, then hand the callable to that limiter. */
  function EnqueuedAt(m: Mux, name: string, f: Arg, now: int): Result<Mux, MuxError>
  {
    match Lookup(m, name)
    case Failure(e) => Failure(e)
    case Success(l) =>
      var l' := if name in m.pending then Started(l, now) else l;
      Success(Mux(m.limiters[name := Enqueued(l', f)], m.pending - {name}))
  }

  /** Solver aid: a second write to the same name replaces the first. Dafny
      proves this unaided; calling it spares `PotholeMux.Enqueue` a costly
      search for the same fact. */
  lemma OverwriteTwice(limiters: map<string, Limiter>, name: string, a: Limiter, b: Limiter)
    ensures limiters[name := a][name := b] == limiters[name := b]
  {
  }

  /** `stats(label)`. */
  function StatsAt(m: Mux, name: string): Result<StatsReport, MuxError>
  {
    match Lookup(m, name)
    case Failure(e) => Failure(e)
    case Success(l) => Success(Report(l))
  }

  /** `stop(label)`: stops the named limiter; the pending mark stays. */
  function StoppedAt(m: Mux, name: string): Result<Mux, MuxError>
  {
    match Lookup(m, name)
    case Failure(e) => Failure(e)
    case Success(l) => Success(m.(limiters := m.limiters[name := Stopped(l)]))
  }

  /** Submitting the callables `ids` one after another under one name. */
  function EnqueuedAllAt(m: Mux, name: string, ids: seq<FnId>, now: int): Mux
    decreases |ids|
  {
    if ids == [] then m
    else
      match EnqueuedAt(m, name, Func(ids[0]), now)
      case Failure(_) => m
      case Success(m') => EnqueuedAllAt(m', name, ids[1..], now)
  }

  /** An unknown name makes `enqueue`, `stats` and `stop` fail with the
      missing-limiter error, and nothing changes. */
  lemma UnknownNameFails(m: Mux, name: string, f: Arg, now: int)
    requires name !in m.limiters
    ensures Lookup(m, name) == Failure(PotholeMissing(name))
    ensures EnqueuedAt(m, name, f, now) == Failure(PotholeMissing(name))
    ensures StatsAt(m, name) == Failure(PotholeMissing(name))
    ensures StoppedAt(m, name) == Failure(PotholeMissing(name))
  {
  }

  /** A known name is found, and `stats` reports that limiter's counters. */
  lemma KnownNameFound(m: Mux, name: string)
    requires name in m.limiters
    ensures Lookup(m, name) == Success(m.limiters[name])
    ensures StatsAt(m, name) == Success(Report(m.limiters[name]))
  {
  }

  /** `add` refuses a name that is already registered, whatever the options. */
  lemma DuplicateRefused(m: Mux, name: string, options: WindowOptions)
    requires name in m.limiters
    ensures Added(m, name, options) == Failure(PotholeExists(name))
  {
  }

  /** `add` on a fresh name fails exactly when the options are invalid;
      otherwise it registers an unstarted limiter with a pending start and
      leaves every other name as it was. */
  lemma AddFreshName(m: Mux, name: string, options: WindowOptions)
    requires name !in m.limiters
    ensures Added(m, name, options).Success? <==> ParseWindow(options).Success?
    ensures Added(m, name, options).Failure? ==> Added(m, name, options).error == WindowRejected(InvalidWindow)
    ensures Added(m, name, options).Success? ==>
      var r := Added(m, name, options).value;
      && r.limiters.Keys == m.limiters.Keys + {name}
      && r.limiters[name] == Initial(ParseWindow(options).value)
      && !r.limiters[name].started
      && name in r.pending
      && (forall n :: n in m.limiters ==> r.limiters[n] == m.limiters[n] && (n in r.pending <==> n in m.pending))
  {
  }

  /** Every registry operation keeps pending starts within the registered names. */
  lemma WellFormedPreserved(m: Mux, name: string, options: WindowOptions, f: Arg, now: int)
    requires WellFormed(m)
    ensures WellFormed(Empty())
    ensures Added(m, name, options).Success? ==> WellFormed(Added(m, name, options).value)
    ensures EnqueuedAt(m, name, f, now).Success? ==> WellFormed(EnqueuedAt(m, name, f, now).value)
    ensures StoppedAt(m, name).Success? ==> WellFormed(StoppedAt(m, name).value)
  {
  }

  /** The first `enqueue` on a pending name starts that limiter, clears the
      mark, and then submits the callable to the started limiter. */
  lemma FirstEnqueueStarts(m: Mux, name: string, f: Arg, now: int)
    requires name in m.limiters && name in m.pending
    ensures EnqueuedAt(m, name, f, now).Success?
    ensures var r := EnqueuedAt(m, name, f, now).value;
      && r.limiters[name] == Enqueued(Started(m.limiters[name], now), f)
      && r.limiters[name].started
      && name !in r.pending
  {
  }

  /** `enqueue` changes only the named limiter and the named pending mark. */
  lemma EnqueueOnlyNamed(m: Mux, name: string, f: Arg, now: int)
    requires name in m.limiters
    ensures EnqueuedAt(m, name, f, now).Success?
    ensures var r := EnqueuedAt(m, name, f, now).value;
      && r.limiters.Keys == m.limiters.Keys
      && (forall n :: n in m.limiters && n != name ==>
            r.limiters[n] == m.limiters[n] && (n in r.pending <==> n in m.pending))
  {
  }

  /** `stop` before the first `enqueue` does not clear the pending mark, so
      that first `enqueue` still starts the limiter. */
  lemma StopKeepsPendingStart(m: Mux, name: string, f: Arg, now: int)
    requires name in m.limiters && name in m.pending
    ensures StoppedAt(m, name).Success?
    ensures var s := StoppedAt(m, name).value;
      && name in s.pending
      && !s.limiters[name].started
      && EnqueuedAt(s, name, f, now).Success?
      && EnqueuedAt(s, name, f, now).value.limiters[name].started
  {
  }

  /** Once the pending mark is gone, the registry never starts that limiter
      again: after a `stop` through the registry, every later `enqueue` only
      queues, in submission order, and the limiter stays stopped. */
  lemma {:induction false} NoRestartAfterStop(m: Mux, name: string, ids: seq<FnId>, now: int)
    requires name in m.limiters && name !in m.pending && !m.limiters[name].started
    ensures var r := EnqueuedAllAt(m, name, ids, now);
      && name in r.limiters && name !in r.pending
      && r.limiters[name] == m.limiters[name].(queue := m.limiters[name].queue + ids)
    decreases |ids|
  {
    if ids != [] {
      var l := m.limiters[name];
      var m' := EnqueuedAt(m, name, Func(ids[0]), now).value;
      assert m'.limiters[name] == l.(queue := l.queue + [ids[0]]);
      NoRestartAfterStop(m', name, ids[1..], now);
      assert l.queue + [ids[0]] + ids[1..] == l.queue + ids;
    }
  }
}
