/** The limiter object of lib/pothole.js. Its fields are updated in place by
    `enqueue`, by the window-open cycle and by `start`/`stop`; every method is
    proved to move `Model()` exactly as the matching function of `LimiterSpec`
    says. The recurring timer is not modelled: the environment calls `Tick`
    at each window boundary while the limiter is started. */
module Pothole {
  import opened Wrappers
  import opened LimiterSpec

  class Pothole {
    const window: Window
    var started: bool
    /** Deferred callables; `push` appends at the end, the drain pops from the end. */
    var queue: seq<FnId>
    var remaining: int
    /** Estimated time of the next window boundary. */
    var next: int
    /** Every callable this limiter has invoked, oldest first. */
    ghost var executed: seq<FnId>

    ghost function Model(): Limiter
      reads this
    {
      Limiter(window, started, queue, remaining, next, executed)
    }

    /** Construction from an already validated window. */
    constructor (window: Window)
      ensures Model() == Initial(window)
    {
      this.window := window;
      started := false;
      queue := [];
      remaining := -1;
      next := -1;
      executed := [];
    }

    /** `new Pothole(options)`: fails unless the window is an object with
        numeric `size` and `length`; otherwise a fresh, unstarted limiter. */
    static method Create(options: WindowOptions) returns (r: Result<Pothole, Error>)
      ensures r.Success? <==> ParseWindow(options).Success?
      ensures r.Failure? ==> r.error == InvalidWindow
      ensures r.Success? ==> fresh(r.value) && r.value.Model() == Initial(ParseWindow(options).value)
    {
      match ParseWindow(options)
      case Failure(e) =>
        r := Failure(e);
      case Success(w) =>
        var p := new Pothole(w);
        r := Success(p);
    }

    /** `enqueue(func)`. Returns the limiter itself. */
    method Enqueue(f: Arg) returns (self: Pothole)
      modifies this
      ensures self == this
      ensures Model() == Enqueued(old(Model()), f)
      ensures f.NonFunction? ==> unchanged(this)
      ensures f.Func? && old(Queues(Model())) ==>
        queue == old(queue) + [f.id] && remaining == old(remaining) && executed == old(executed)
      ensures f.Func? && !old(Queues(Model())) ==>
        queue == old(queue) && remaining == old(remaining) - 1 && executed == old(executed) + [f.id]
    {
      self := this;
      if f.NonFunction? {
        return;
      }
      if queue != [] || remaining == 0 || !started {
        queue := queue + [f.id];
      } else {
        executed := executed + [f.id];  // the callable runs here
        remaining := remaining - 1;
      }
    }

    /** The alias `add` of `enqueue`. */
    method Add(f: Arg) returns (self: Pothole)
      modifies this
      ensures self == this
      ensures Model() == Enqueued(old(Model()), f)
    {
      self := Enqueue(f);
    }

    /** `stats()`: a pure read of the stored counters. */
    function Stats(): (s: StatsReport)
      reads this
      ensures s == Report(Model())
    {
      StatsReport(|queue|, window.size, window.length, remaining, next)
    }

    /** `_init`, the window-open cycle, with `now` standing for `Date.now()`. */
    method Init(now: int)
      modifies this
      ensures Model() == WindowOpened(old(Model()), now)
      ensures started == old(started)
      ensures queue == [] || remaining <= 0
    {
      next := now + window.length;
      remaining := window.size;
      while queue != [] && remaining > 0
        invariant Drained(Model()) == WindowOpened(old(Model()), now)
        decreases |queue|
      {
        var last := |queue| - 1;
        var func := queue[last];
        queue := queue[..last];
        executed := executed + [func];  // the callable runs here
        remaining := remaining - 1;
      }
      WindowOpenedResult(old(Model()), now);
    }

    /** A window boundary while started: the timer runs `_init`. */
    method Tick(now: int)
      requires started
      modifies this
      ensures started
      ensures Model() == WindowOpened(old(Model()), now)
    {
      Init(now);
    }

    /** `start()`: one window-open cycle now, then started. */
    method Start(now: int) returns (self: Pothole)
      modifies this
      ensures self == this
      ensures Model() == Started(old(Model()), now)
    {
      Init(now);
      started := true;
      self := this;
    }

    /** The alias `sink` of `start`. */
    method Sink(now: int) returns (self: Pothole)
      modifies this
      ensures self == this
      ensures Model() == Started(old(Model()), now)
    {
      self := Start(now);
    }

    /** `stop()`: clears the started flag and nothing else. */
    method Stop() returns (self: Pothole)
      modifies this
      ensures self == this
      ensures Model() == Stopped(old(Model()))
      ensures queue == old(queue) && remaining == old(remaining) && next == old(next)
    {
      started := false;
      self := this;
    }
  }
}
