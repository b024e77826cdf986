/** The registry object of lib/pothole-mux.js. It owns two dictionaries,
    updated in place by `add` and `enqueue`, and reaches into the named
    limiter for `enqueue` and `stop`. Every method is proved to move
    `Model()` exactly as the matching function of `MuxSpec` says. */
module PotholeMux {
  import opened Wrappers
  import opened LimiterSpec
  import opened MuxSpec
  import Pothole

  class PotholeMux {
    var potholes: map<string, Pothole.Pothole>
    /** Names whose limiter is started by the next `enqueue`. */
    var pending: set<string>

    /** Pending marks refer to registered names, and no limiter is shared
        by two names (`add` always constructs a new one). */
    ghost predicate Valid()
      reads this
    {
      && pending <= potholes.Keys
      && forall a, b :: a in potholes && b in potholes && a != b ==> potholes[a] != potholes[b]
    }

    ghost function Model(): Mux
      reads this, potholes.Values
    {
      Mux(map n | n in potholes :: potholes[n].Model(), pending)
    }

    constructor ()
      ensures Valid() && Model() == Empty()
    {
      potholes := map[];
      pending := {};
    }

    /** `_checkForPothole(label)`: the registered limiter, or the
        missing-limiter error. */
    function CheckForPothole(name: string): (r: Result<Pothole.Pothole, MuxError>)
      reads this, potholes.Values
      ensures r.Success? <==> name in potholes
      ensures r.Success? ==> r.value == potholes[name] && Lookup(Model(), name) == Success(r.value.Model())
      ensures r.Failure? ==> r.error == PotholeMissing(name) && Lookup(Model(), name).Failure?
    {
      if name in potholes then Success(potholes[name]) else Failure(PotholeMissing(name))
    }

    /** `add(label, options)`: returns the newly registered limiter. */
    method Add(name: string, options: WindowOptions) returns (r: Result<Pothole.Pothole, MuxError>)
      requires Valid()
      modifies this
      ensures Valid()
      ensures var s := Added(old(Model()), name, options);
        && (r.Success? <==> s.Success?)
        && (r.Failure? ==> r.error == s.error && potholes == old(potholes) && pending == old(pending))
        && (r.Success? ==> fresh(r.value) && potholes == old(potholes)[name := r.value] && Model() == s.value)
    {
      if name in potholes {
        return Failure(PotholeExists(name));
      }
      var created := Pothole.Pothole.Create(options);
      match created
      case Failure(e) =>
        r := Failure(WindowRejected(e));
      case Success(p) =>
        assert Model() == old(Model());
        potholes := potholes[name := p];
        pending := pending + {name};
        r := Success(p);
    }

    /** `enqueue(label, func)`: returns the registry itself. */
    method Enqueue(name: string, f: Arg, now: int) returns (r: Result<PotholeMux, MuxError>)
      requires Valid()
      modifies this, potholes.Values
      ensures Valid() && potholes == old(potholes)
      ensures var s := EnqueuedAt(old(Model()), name, f, now);
        && (r.Success? <==> s.Success?)
        && (r.Failure? ==> r.error == s.error && pending == old(pending) && Model() == old(Model()))
        && (r.Success? ==> r.value == this && Model() == s.value)
    {
      match CheckForPothole(name)
      case Failure(e) =>
        r := Failure(e);
      case Success(p) =>
        ghost var m0 := Model();
        ghost var l := if name in pending then Started(m0.limiters[name], now) else m0.limiters[name];
        StartIfPending(name, now);
        ghost var m1 := Model();
        assert m1.limiters == m0.limiters[name := l];
        assert m1.limiters[name] == l;
        Submit(name, f);
        ghost var e := Enqueued(l, f);
        assert Model().limiters == m1.limiters[name := e];
        OverwriteTwice(m0.limiters, name, l, e);
        r := Success(this);
        assert EnqueuedAt(m0, name, f, now) == Success(Mux(m0.limiters[name := e], m0.pending - {name}));
    }

    /** The lazy start inside `enqueue`: start the named limiter if its start
        is pending, and clear the mark. */
    method StartIfPending(name: string, now: int)
      requires Valid() && name in potholes
      modifies this, potholes[name]
      ensures Valid() && potholes == old(potholes) && pending == old(pending) - {name}
      ensures var m := old(Model());
        Model().limiters == m.limiters[name := if name in m.pending then Started(m.limiters[name], now) else m.limiters[name]]
    {
      var p := potholes[name];
      ghost var before := p.Model();
      if name in pending {
        var started := p.Start(now);
        pending := pending - {name};
        assert p.Model() == Started(before, now);
      }
      forall n | n in potholes && n != name
        ensures potholes[n].Model() == old(potholes[n].Model())
      {
        assert potholes[n] != p;
      }
      ghost var target := if name in old(pending) then Started(before, now) else before;
      assert p.Model() == target;
      ghost var after, expected := Model().limiters, old(Model()).limiters[name := target];
      assert after.Keys == expected.Keys;
      assert forall n :: n in after ==> after[n] == expected[n];
    }

    /** The delegation inside `enqueue`: hand the callable to the named limiter. */
    method Submit(name: string, f: Arg)
      requires Valid() && name in potholes
      modifies potholes[name]
      ensures Valid() && potholes == old(potholes) && pending == old(pending)
      ensures var m := old(Model());
        Model().limiters == m.limiters[name := Enqueued(m.limiters[name], f)]
    {
      var p := potholes[name];
      var same := p.Enqueue(f);
      forall n | n in potholes && n != name
        ensures potholes[n].Model() == old(potholes[n].Model())
      {
        assert potholes[n] != p;
      }
    }

    /** `stats(label)`: the named limiter's own report. */
    function Stats(name: string): (r: Result<StatsReport, MuxError>)
      reads this, potholes.Values
      ensures r == StatsAt(Model(), name)
      ensures r.Success? <==> name in potholes
      ensures r.Success? ==> r.value == potholes[name].Stats()
    {
      match CheckForPothole(name)
      case Failure(e) => Failure(e)
      case Success(p) => Success(p.Stats())
    }

    /** `stop(label)`: returns the same limiter, now stopped. */
    method Stop(name: string) returns (r: Result<Pothole.Pothole, MuxError>)
      requires Valid()
      modifies potholes.Values
      ensures Valid() && potholes == old(potholes) && pending == old(pending)
      ensures var s := StoppedAt(old(Model()), name);
        && (r.Success? <==> s.Success?)
        && (r.Failure? ==> r.error == s.error && Model() == old(Model()))
        && (r.Success? ==> r.value == potholes[name] && !r.value.started && Model() == s.value)
    {
      match CheckForPothole(name)
      case Failure(e) =>
        r := Failure(e);
      case Success(p) =>
        ghost var m0 := Model();
        var stopped := p.Stop();
        r := Success(stopped);
        forall n | n in potholes && n != name
          ensures potholes[n].Model() == m0.limiters[n]
        {
          assert potholes[n] != p;
        }
        ghost var after, expected := Model().limiters, m0.limiters[name := Stopped(m0.limiters[name])];
        assert after.Keys == expected.Keys;
        assert forall n :: n in after ==> after[n] == expected[n];
    }
  }
}
