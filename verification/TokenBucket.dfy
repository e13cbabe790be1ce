/**
 The token bucket of juju/ratelimit: lazy refill by whole ticks, a cap, and debt for takers that wait.
 Times and durations are integers (nanoseconds); runs are sequential.
 */
module TokenBucket {
  import opened Common

  /** The fixed parameters of a bucket; the constructor panics unless the last three are positive. */
  datatype Config = Config(startTime: int, capacity: int, quantum: int, fillInterval: int) {
    predicate Ok() {
      capacity > 0 && quantum > 0 && fillInterval > 0
    }

    /** Go's division truncates toward zero. */
    function Tick(now: int): int
      requires Ok()
    {
      var d := now - startTime;
      if d >= 0 then d / fillInterval else -((-d) / fillInterval)
    }

    function EndTime(tick: int): int {
      startTime + tick * fillInterval
    }
  }

  /** Tokens available as of a tick; negative while takers are waiting. */
  datatype Level = Level(avail: int, availTick: int)

  /** The level after adjust. */
  function Adjusted(c: Config, l: Level, now: int): Level
    requires c.Ok()
  {
    if l.avail >= c.capacity then l
    else
      var tick := c.Tick(now);
      Level(Min(l.avail + (tick - l.availTick) * c.quantum, c.capacity), tick)
  }

  function CeilDiv(a: int, b: int): int
    requires a > 0 && b > 0
  {
    (a + b - 1) / b
  }

  datatype Request = Take(now: int, count: int, maxWait: int) | TakeAvailable(now: int, count: int)

  /** What a request does: the new level, the tokens taken, and for Take the wait and whether it was accepted. */
  datatype Outcome = Outcome(level: Level, taken: int, wait: int, ok: bool)

  function Serve(c: Config, l: Level, r: Request): Outcome
    requires c.Ok()
  {
    if r.count <= 0 then Outcome(l, 0, 0, true)
    else
      var a := Adjusted(c, l, r.now);
      match r
      case TakeAvailable(now, count) =>
        if a.avail <= 0 then Outcome(a, 0, 0, true)
        else
          var n := Min(count, a.avail);
          Outcome(a.(avail := a.avail - n), n, 0, true)
      case Take(now, count, maxWait) =>
        var avail := a.avail - count;
        if avail >= 0 then Outcome(a.(avail := avail), count, 0, true)
        else
          var endTick := c.Tick(now) + CeilDiv(-avail, c.quantum);
          var wait := c.EndTime(endTick) - now;
          if wait > maxWait then Outcome(a, 0, 0, false)
          else Outcome(a.(avail := avail), count, wait, true)
  }

  // ---------------------------------------------------------------- the bucket in place

  class Bucket {
    const config: Config
    var avail: int
    var availTick: int

    ghost predicate Valid()
      reads this
    {
      config.Ok()
    }

    ghost function State(): Level
      reads this
    {
      Level(avail, availTick)
    }

    /** NewBucketWithQuantum; the clock reading is a parameter.  null stands for a panic. */
    static method NewBucketWithQuantum(startTime: int, fillInterval: int, capacity: int, quantum: int)
        returns (b: Bucket?)
      ensures b == null <==> fillInterval <= 0 || capacity <= 0 || quantum <= 0
      ensures b != null ==>
                && fresh(b) && b.Valid() && b.config == Config(startTime, capacity, quantum, fillInterval)
                && b.State() == Level(capacity, 0)
    {
      if fillInterval <= 0 || capacity <= 0 || quantum <= 0 {
        return null;
      }
      b := new Bucket(startTime, fillInterval, capacity, quantum);
    }

    /** The bucket starts full. */
    constructor (startTime: int, fillInterval: int, capacity: int, quantum: int)
      requires fillInterval > 0 && capacity > 0 && quantum > 0
      ensures Valid() && config == Config(startTime, capacity, quantum, fillInterval)
      ensures State() == Level(capacity, 0)
    {
      config := Config(startTime, capacity, quantum, fillInterval);
      avail := capacity;
      availTick := 0;
    }

    method Adjust(now: int) returns (currentTick: int)
      requires Valid()
      modifies this
      ensures currentTick == config.Tick(now)
      ensures State() == Adjusted(config, old(State()), now)
    {
      currentTick := config.Tick(now);
      if avail >= config.capacity {
        return;
      }
      avail := avail + (currentTick - availTick) * config.quantum;
      if avail > config.capacity {
        avail := config.capacity;
      }
      availTick := currentTick;
    }

    method Take(now: int, count: int, maxWait: int) returns (wait: int, ok: bool)
      requires Valid()
      modifies this
      ensures var o := Serve(config, old(State()), Request.Take(now, count, maxWait));
              State() == o.level && wait == o.wait && ok == o.ok
    {
      if count <= 0 {
        return 0, true;
      }
      var currentTick := Adjust(now);
      var left := avail - count;
      if left >= 0 {
        avail := left;
        return 0, true;
      }
      var endTick := currentTick + (-left + config.quantum - 1) / config.quantum;
      var endTime := config.EndTime(endTick);
      var waitTime := endTime - now;
      if waitTime > maxWait {
        return 0, false;
      }
      avail := left;
      return waitTime, true;
    }

    method TakeAvailable(now: int, count: int) returns (n: int)
      requires Valid()
      modifies this
      ensures var o := Serve(config, old(State()), Request.TakeAvailable(now, count));
              State() == o.level && n == o.taken
    {
      if count <= 0 {
        return 0;
      }
      var tick := Adjust(now);
      if avail <= 0 {
        return 0;
      }
      n := count;
      if n > avail {
        n := avail;
      }
      avail := avail - n;
    }
  }

  // ---------------------------------------------------------------- runs

  /** The clock never goes back, and starts no earlier than `from`. */
  predicate Clocked(rs: seq<Request>, from: int) {
    rs == [] || (rs[0].now >= from && Clocked(rs[1..], rs[0].now))
  }

  /** The time of the last request. */
  function LastTime(rs: seq<Request>, from: int): int {
    if rs == [] then from else LastTime(rs[1..], rs[0].now)
  }

  function After(c: Config, l: Level, rs: seq<Request>): Level
    requires c.Ok()
    decreases |rs|
  {
    if rs == [] then l else After(c, Serve(c, l, rs[0]).level, rs[1..])
  }

  /** The tokens taken over a run. */
  function Taken(c: Config, l: Level, rs: seq<Request>): int
    requires c.Ok()
    decreases |rs|
  {
    if rs == [] then 0 else
      var o := Serve(c, l, rs[0]);
      o.taken + Taken(c, o.level, rs[1..])
  }

  lemma TickMonotone(c: Config, a: int, b: int)
    requires c.Ok() && c.startTime <= a <= b
    ensures 0 <= c.Tick(a) <= c.Tick(b)
  {
    DivMonotone(a - c.startTime, b - c.startTime, c.fillInterval);
  }

  lemma DivMonotone(x: int, y: int, d: int)
    requires 0 <= x <= y && d > 0
    ensures 0 <= x / d <= y / d
  {
    var q, s := x / d, y / d;
    assert x == q * d + x % d && y == s * d + y % d;
    if q >= s + 1 { MulMonotone(d, s + 1, q); }
  }

  /** A level the bucket can have by tick `t`. */
  predicate LevelOk(c: Config, l: Level, t: int) {
    l.avail <= c.capacity && 0 <= l.availTick <= t
  }

  /** One request: the level stays legal, and tokens taken are paid for by the refill. */
  lemma ServePays(c: Config, l: Level, r: Request)
    requires c.Ok() && c.startTime <= r.now && LevelOk(c, l, c.Tick(r.now))
    ensures var o := Serve(c, l, r);
            && LevelOk(c, o.level, c.Tick(r.now)) && l.availTick <= o.level.availTick && o.taken >= 0
            && o.taken + o.level.avail <= l.avail + c.quantum * (o.level.availTick - l.availTick)
  {
    var tick := c.Tick(r.now);
    assert (tick - l.availTick) * c.quantum == c.quantum * (tick - l.availTick);
  }

  /** Every token is accounted for: what a request takes and what it leaves is what there was and the refill, capped. */
  lemma RequestBalances(c: Config, l: Level, r: Request)
    requires c.Ok() && LevelOk(c, l, c.Tick(r.now)) && r.count > 0
    ensures var o := Serve(c, l, r);
            if l.avail < c.capacity then
              && o.taken + o.level.avail == Min(c.capacity, l.avail + c.quantum * (c.Tick(r.now) - l.availTick))
              && o.level.availTick == c.Tick(r.now)
            else
              o.taken + o.level.avail == c.capacity && o.level.availTick == l.availTick
  {
    var tick := c.Tick(r.now);
    assert (tick - l.availTick) * c.quantum == c.quantum * (tick - l.availTick);
  }

  /** TakeAvailable takes all that is asked or all that is there. */
  lemma TakesAllThereIs(c: Config, l: Level, r: Request)
    requires c.Ok() && r.TakeAvailable? && r.count > 0
    ensures var o := Serve(c, l, r);
            && o.ok && 0 <= o.taken <= r.count
            && (o.taken == r.count || o.level.avail <= 0) && (o.taken > 0 ==> o.level.avail >= 0)
  {
    hide Adjusted;
  }

  /** The tick count is the number of whole intervals since the bucket was made. */
  lemma TickIsElapsed(c: Config, now: int)
    requires c.Ok() && c.startTime <= now
    ensures c.startTime + c.Tick(now) * c.fillInterval <= now < c.startTime + (c.Tick(now) + 1) * c.fillInterval
  {
    var d := now - c.startTime;
    assert d == (d / c.fillInterval) * c.fillInterval + d % c.fillInterval;
  }

  lemma LevelLater(c: Config, l: Level, a: int, b: int)
    requires c.Ok() && c.startTime <= a <= b && LevelOk(c, l, c.Tick(a))
    ensures LevelOk(c, l, c.Tick(b))
  {
    TickMonotone(c, a, b);
  }

  /** Over any run, tokens taken plus tokens left never exceed the capacity plus the refill of the ticks counted. */
  lemma {:induction false} RunPays(c: Config, l: Level, rs: seq<Request>, from: int)
    requires c.Ok() && c.startTime <= from && Clocked(rs, from) && LevelOk(c, l, c.Tick(from))
    ensures var e := After(c, l, rs);
            && LevelOk(c, e, c.Tick(LastTime(rs, from))) && l.availTick <= e.availTick
            && Taken(c, l, rs) + e.avail <= l.avail + c.quantum * (e.availTick - l.availTick)
    decreases |rs|
  {
    if rs != [] {
      var r := rs[0];
      LevelLater(c, l, from, r.now);
      ServePays(c, l, r);
      var m := Serve(c, l, r).level;
      RunPays(c, m, rs[1..], r.now);
      var e := After(c, m, rs[1..]);
      assert c.quantum * (m.availTick - l.availTick) + c.quantum * (e.availTick - m.availTick) ==
             c.quantum * (e.availTick - l.availTick);
    }
  }

  /**
   From creation on: tokens issued are bounded by the capacity, the refill of the elapsed ticks, and the outstanding
   debt.
   */
  lemma IssuedSinceCreation(c: Config, rs: seq<Request>)
    requires c.Ok() && Clocked(rs, c.startTime)
    ensures var full := Level(c.capacity, 0);
            var e := After(c, full, rs);
            && e.avail <= c.capacity
            && Taken(c, full, rs) + e.avail <= c.capacity + c.quantum * e.availTick
            && Taken(c, full, rs) <= c.capacity + c.quantum * c.Tick(LastTime(rs, c.startTime)) + Max(0, -e.avail)
  {
    var full := Level(c.capacity, 0);
    RunPays(c, full, rs, c.startTime);
    var e := After(c, full, rs);
    MulMonotone(c.quantum, e.availTick, c.Tick(LastTime(rs, c.startTime)));
  }

  lemma MulMonotone(q: int, x: int, y: int)
    requires q >= 0 && x <= y
    ensures q * x <= q * y
  {
  }

  // ---------------------------------------------------------------- windows

  predicate OnlyTakeAvailable(rs: seq<Request>) {
    forall i :: 0 <= i < |rs| ==> rs[i].TakeAvailable?
  }

  lemma LastTimeLater(rs: seq<Request>, from: int)
    requires Clocked(rs, from)
    ensures from <= LastTime(rs, from)
  {
  }

  /** TakeAvailable never goes into debt. */
  lemma NoDebtStep(c: Config, l: Level, r: Request)
    requires c.Ok() && c.startTime <= r.now && r.TakeAvailable? && LevelOk(c, l, c.Tick(r.now))
    ensures Serve(c, l, r).level.avail >= Min(0, l.avail)
  {
    MulMonotone(c.quantum, l.availTick, c.Tick(r.now));
    var tick := c.Tick(r.now);
    assert (tick - l.availTick) * c.quantum == c.quantum * tick - c.quantum * l.availTick;
  }

  lemma {:induction false} NoNewDebt(c: Config, l: Level, rs: seq<Request>, from: int)
    requires c.Ok() && c.startTime <= from && Clocked(rs, from) && OnlyTakeAvailable(rs)
    requires LevelOk(c, l, c.Tick(from))
    ensures After(c, l, rs).avail >= Min(0, l.avail)
    decreases |rs|
  {
    if rs != [] {
      var r := rs[0];
      LevelLater(c, l, from, r.now);
      ServePays(c, l, r);
      NoDebtStep(c, l, r);
      hide Serve;
      NoNewDebt(c, Serve(c, l, r).level, rs[1..], r.now);
    }
  }

  /** Grants from a level whose tick count is not older than the window: capacity plus refill. */
  lemma GrantsFromCurrent(c: Config, l: Level, rs: seq<Request>, from: int, t1: int)
    requires c.Ok() && c.startTime <= from && Clocked(rs, from) && OnlyTakeAvailable(rs)
    requires LevelOk(c, l, c.Tick(from)) && t1 <= l.availTick
    ensures Taken(c, l, rs) <= c.capacity + c.quantum * (c.Tick(LastTime(rs, from)) - t1)
  {
    RunPays(c, l, rs, from);
    NoNewDebt(c, l, rs, from);
    var e := After(c, l, rs);
    MulMonotone(c.quantum, e.availTick - l.availTick, c.Tick(LastTime(rs, from)) - t1);
    if l.avail < 0 { GrantsFromDebt(c, l, rs, from); }
  }

  /** TakeAvailable takes something only if it is there, and leaves no debt behind. */
  lemma TakesWhatIsThere(c: Config, l: Level, r: Request)
    requires c.Ok() && r.TakeAvailable?
    ensures var o := Serve(c, l, r); o.level.avail < 0 ==> o.taken == 0
  {
    hide Adjusted;
  }

  /** A bucket in debt grants no more than the refill. */
  lemma {:induction false} GrantsFromDebt(c: Config, l: Level, rs: seq<Request>, from: int)
    requires c.Ok() && c.startTime <= from && Clocked(rs, from) && OnlyTakeAvailable(rs)
    requires LevelOk(c, l, c.Tick(from)) && l.avail < 0
    ensures Taken(c, l, rs) <= c.quantum * (After(c, l, rs).availTick - l.availTick)
    decreases |rs|
  {
    hide Serve;
    if rs != [] {
      var r := rs[0];
      LevelLater(c, l, from, r.now);
      ServePays(c, l, r);
      TakesWhatIsThere(c, l, r);
      var o := Serve(c, l, r);
      var e := After(c, l, rs);
      var d1 := c.quantum * (o.level.availTick - l.availTick);
      var d2 := c.quantum * (e.availTick - o.level.availTick);
      assert d1 + d2 == c.quantum * (e.availTick - l.availTick);
      if o.level.avail < 0 {
        GrantsFromDebt(c, o.level, rs[1..], r.now);
        MulMonotone(c.quantum, l.availTick, o.level.availTick);
      } else {
        RunPays(c, o.level, rs[1..], r.now);
        NoNewDebt(c, o.level, rs[1..], r.now);
      }
    }
  }

  /**
   Over any window from tick t1 to the tick of its last request, TakeAvailable grants at most twice the
   capacity plus the refill, whatever the level at the start.  If the level is below capacity or its tick
   count is current, once the capacity is enough.
   */
  lemma {:induction false} WindowBound(c: Config, l: Level, rs: seq<Request>, from: int)
    requires c.Ok() && c.startTime <= from && Clocked(rs, from) && OnlyTakeAvailable(rs)
    requires LevelOk(c, l, c.Tick(from))
    ensures var refill := c.quantum * (c.Tick(LastTime(rs, from)) - c.Tick(from));
            && Taken(c, l, rs) <= 2 * c.capacity + refill
            && (l.avail < c.capacity || l.availTick == c.Tick(from) ==> Taken(c, l, rs) <= c.capacity + refill)
    decreases |rs|
  {
    hide Serve, Taken;
    TakenFirst(c, l, rs);
    if rs == [] {
    } else if l.availTick == c.Tick(from) {
      GrantsFromCurrent(c, l, rs, from, c.Tick(from));
      LastTick(c, rs, from);
    } else if rs[0].count <= 0 {
      LevelLater(c, l, from, rs[0].now);
      NothingAsked(c, l, rs[0]);
      WindowBound(c, l, rs[1..], rs[0].now);
      LaterWindow(c, rs, from);
    } else if l.avail < c.capacity {
      AdjustFirst(c, l, rs, from);
      LastTick(c, rs, from);
    } else {
      var r := rs[0];
      LevelLater(c, l, from, r.now);
      ServePays(c, l, r);
      FullGrant(c, l, r);
      WindowBound(c, Serve(c, l, r).level, rs[1..], r.now);
      LaterWindow(c, rs, from);
    }
  }

  lemma TakenFirst(c: Config, l: Level, rs: seq<Request>)
    requires c.Ok()
    ensures Taken(c, l, rs) == if rs == [] then 0 else
              Serve(c, l, rs[0]).taken + Taken(c, Serve(c, l, rs[0]).level, rs[1..])
  {
    hide Serve;
  }

  lemma NothingAsked(c: Config, l: Level, r: Request)
    requires c.Ok() && r.count <= 0
    ensures Serve(c, l, r) == Outcome(l, 0, 0, true)
  {
  }

  lemma LastTick(c: Config, rs: seq<Request>, from: int)
    requires c.Ok() && c.startTime <= from && Clocked(rs, from)
    ensures c.quantum * (c.Tick(LastTime(rs, from)) - c.Tick(from)) >= 0
  {
    LastTimeLater(rs, from);
    TickMonotone(c, from, LastTime(rs, from));
  }

  /** A window that starts later has no more refill. */
  lemma LaterWindow(c: Config, rs: seq<Request>, from: int)
    requires c.Ok() && c.startTime <= from && Clocked(rs, from) && rs != []
    ensures var last := c.Tick(LastTime(rs, from));
            LastTime(rs[1..], rs[0].now) == LastTime(rs, from)
            && c.quantum * (last - c.Tick(rs[0].now)) <= c.quantum * (last - c.Tick(from))
  {
    TickMonotone(c, from, rs[0].now);
    var last := c.Tick(LastTime(rs, from));
    MulMonotone(c.quantum, last - c.Tick(rs[0].now), last - c.Tick(from));
  }

  /** A full bucket grants at most its capacity, and is then no longer full. */
  lemma FullGrant(c: Config, l: Level, r: Request)
    requires c.Ok() && r.TakeAvailable? && r.count > 0 && l.avail == c.capacity
    ensures var o := Serve(c, l, r); o.taken <= c.capacity && o.level.avail < c.capacity
  {
  }

  /** Adjusting first makes no difference to the run, and brings the tick count up to date. */
  lemma AdjustFirst(c: Config, l: Level, rs: seq<Request>, from: int)
    requires c.Ok() && c.startTime <= from && Clocked(rs, from) && OnlyTakeAvailable(rs)
    requires LevelOk(c, l, c.Tick(from)) && l.avail < c.capacity
    requires rs != [] && rs[0].count > 0
    ensures Taken(c, l, rs) <= c.capacity + c.quantum * (c.Tick(LastTime(rs, from)) - c.Tick(from))
  {
    hide Serve, Adjusted, Taken;
    var r := rs[0];
    LevelLater(c, l, from, r.now);
    TickMonotone(c, from, r.now);
    var a := Adjusted(c, l, r.now);
    AdjustedFits(c, l, r.now);
    TakenAdjusted(c, l, rs);
    ClockedAgain(rs, from);
    GrantsFromCurrent(c, a, rs, r.now, c.Tick(from));
  }

  /** The adjusted level is legal, and current unless the bucket was full; adjusting it again changes nothing. */
  lemma AdjustedFits(c: Config, l: Level, now: int)
    requires c.Ok() && c.startTime <= now && LevelOk(c, l, c.Tick(now))
    ensures var a := Adjusted(c, l, now);
            && LevelOk(c, a, c.Tick(now)) && Adjusted(c, a, now) == a
            && (l.avail < c.capacity ==> a.availTick == c.Tick(now))
  {
    TickMonotone(c, c.startTime, now);
  }

  /** The first request adjusts the level anyway. */
  lemma TakenAdjusted(c: Config, l: Level, rs: seq<Request>)
    requires c.Ok() && rs != [] && rs[0].count > 0
    requires var a := Adjusted(c, l, rs[0].now); Adjusted(c, a, rs[0].now) == a
    ensures Taken(c, Adjusted(c, l, rs[0].now), rs) == Taken(c, l, rs)
  {
    hide Adjusted;
    assert Serve(c, Adjusted(c, l, rs[0].now), rs[0]) == Serve(c, l, rs[0]);
  }

  lemma ClockedAgain(rs: seq<Request>, from: int)
    requires rs != [] && Clocked(rs, from)
    ensures Clocked(rs, rs[0].now) && LastTime(rs, rs[0].now) == LastTime(rs, from)
  {
  }

  /** The doubled capacity is needed: a full bucket left alone long enough grants its capacity twice at one instant. */
  lemma TwiceTheCapacity(c: Config, now: int)
    requires c.Ok() && c.startTime <= now && c.capacity <= c.quantum * c.Tick(now)
    ensures var r := Request.TakeAvailable(now, c.capacity);
            Taken(c, Level(c.capacity, 0), [r, r]) == 2 * c.capacity
  {
    var r := Request.TakeAvailable(now, c.capacity);
    var full := Level(c.capacity, 0);
    TwoRequests(c, full, r, r);
    assert Serve(c, full, r) == Outcome(Level(0, 0), c.capacity, 0, true);
    assert (c.Tick(now) - 0) * c.quantum == c.quantum * c.Tick(now);
    hide Taken;
    assert Serve(c, Level(0, 0), r).taken == c.capacity;
  }

  /** A full bucket with a tick count that has fallen behind exceeds one capacity within the instant. */
  lemma BurstFromStale(c: Config, now: int, l: Level)
    requires c.Ok() && c.startTime <= now && l.avail == c.capacity && l.availTick < c.Tick(now)
    ensures var r := Request.TakeAvailable(now, c.capacity);
            Clocked([r, r], now) && LastTime([r, r], now) == now && Taken(c, l, [r, r]) > c.capacity
  {
    hide Serve, Taken;
    var r := Request.TakeAvailable(now, c.capacity);
    var o := Serve(c, l, r);
    TwoRequests(c, l, r, r);
    FullThenMore(c, now, l);
  }

  /** A run of two requests. */
  lemma TwoRequests(c: Config, l: Level, r: Request, s: Request)
    requires c.Ok() && r.now == s.now
    ensures Clocked([r, s], r.now) && LastTime([r, s], r.now) == r.now
    ensures Taken(c, l, [r, s]) == Serve(c, l, r).taken + Serve(c, Serve(c, l, r).level, s).taken
  {
    hide Serve;
    assert [r, s][1..] == [s] && [s][1..] == [];
    assert Clocked([], s.now) && LastTime([], s.now) == s.now;
    assert Clocked([s], r.now) && LastTime([s], r.now) == LastTime([s][1..], s.now);
    var l1 := Serve(c, l, r).level;
    assert Taken(c, l1, [s]) == Serve(c, l1, s).taken + Taken(c, Serve(c, l1, s).level, [s][1..]);
  }

  /** A full bucket gives its capacity, and then what the ticks it has missed refill. */
  lemma FullThenMore(c: Config, now: int, l: Level)
    requires c.Ok() && c.startTime <= now && l.avail == c.capacity && l.availTick < c.Tick(now)
    ensures var r := Request.TakeAvailable(now, c.capacity);
            var o := Serve(c, l, r);
            o.taken == c.capacity && Serve(c, o.level, r).taken > 0
  {
    var ticks := c.Tick(now) - l.availTick;
    MulMonotone(c.quantum, 1, ticks);
    assert ticks * c.quantum == c.quantum * ticks;
  }

  /** A run that starts at `from` takes no more than one capacity and the refill of its ticks. */
  predicate WithinOneCapacity(c: Config, l: Level, rs: seq<Request>, from: int)
    requires c.Ok()
  {
    Taken(c, l, rs) <= c.capacity + c.quantum * (c.Tick(LastTime(rs, from)) - c.Tick(from))
  }

  /**
   One capacity and the refill bound every run of TakeAvailable exactly unless the bucket is full with an old tick
   count.
   */
  lemma OneCapacityIff(c: Config, l: Level, from: int)
    requires c.Ok() && c.startTime <= from && LevelOk(c, l, c.Tick(from))
    ensures (forall rs :: Clocked(rs, from) && OnlyTakeAvailable(rs) ==> WithinOneCapacity(c, l, rs, from)) <==>
            (l.avail < c.capacity || l.availTick == c.Tick(from))
  {
    if l.avail < c.capacity || l.availTick == c.Tick(from) {
      forall rs | Clocked(rs, from) && OnlyTakeAvailable(rs) ensures WithinOneCapacity(c, l, rs, from) {
        WindowBound(c, l, rs, from);
      }
    } else {
      var r := Request.TakeAvailable(from, c.capacity);
      BurstFromStale(c, from, l);
      var rs := [r, r];
      hide Taken;
      assert c.quantum * (c.Tick(from) - c.Tick(from)) == 0;
      assert Clocked(rs, from) && OnlyTakeAvailable(rs) && !WithinOneCapacity(c, l, rs, from);
    }
  }

  // ---------------------------------------------------------------- waiting

  lemma TickOfEndTime(c: Config, tick: int)
    requires c.Ok() && tick >= 0
    ensures c.Tick(c.EndTime(tick)) == tick
  {
    DivExact(tick, c.fillInterval);
  }

  lemma DivExact(x: int, d: int)
    requires d > 0
    ensures (x * d) / d == x
  {
    var q := (x * d) / d;
    assert x * d == q * d + (x * d) % d;
    if q < x { MulMonotone(d, q + 1, x); }
    if q > x { MulMonotone(d, x + 1, q); }
  }

  /** The least number of quanta that covers a debt. */
  lemma CeilDivCovers(debt: int, q: int)
    requires debt > 0 && q > 0
    ensures CeilDiv(debt, q) >= 1
    ensures CeilDiv(debt, q) * q >= debt
    ensures forall k: int :: k < CeilDiv(debt, q) ==> k * q < debt
  {
    var m := CeilDiv(debt, q);
    var n := debt + q - 1;
    assert n == m * q + n % q;
    forall k: int | k < m ensures k * q < debt {
      assert k * q <= (m - 1) * q == m * q - q;
    }
  }

  /** An accepted Take that has to wait: the level it leaves, and the tick it waits for. */
  lemma AcceptedWait(c: Config, l: Level, now: int, count: int, maxWait: int)
    requires c.Ok() && c.startTime <= now && LevelOk(c, l, c.Tick(now))
    requires var o := Serve(c, l, Request.Take(now, count, maxWait)); o.ok && o.wait != 0
    ensures var o := Serve(c, l, Request.Take(now, count, maxWait));
            var a := Adjusted(c, l, now);
            && o.level == a.(avail := a.avail - count) && o.level.avail < 0
            && o.level.availTick == (if l.avail >= c.capacity then l.availTick else c.Tick(now))
            && now + o.wait == c.EndTime(c.Tick(now) + CeilDiv(-o.level.avail, c.quantum))
            && o.taken == count && o.wait <= maxWait
  {
  }

  /** After exactly the returned wait, the tokens are there. */
  lemma WaitIsLongEnough(c: Config, l: Level, now: int, count: int, maxWait: int)
    requires c.Ok() && c.startTime <= now && LevelOk(c, l, c.Tick(now))
    requires var o := Serve(c, l, Request.Take(now, count, maxWait)); o.ok && o.wait != 0
    ensures var o := Serve(c, l, Request.Take(now, count, maxWait));
            o.wait > 0 && Adjusted(c, o.level, now + o.wait).avail >= 0
  {
    hide Serve, Adjusted, CeilDiv;
    AcceptedWait(c, l, now, count, maxWait);
    var o := Serve(c, l, Request.Take(now, count, maxWait));
    var m := CeilDiv(-o.level.avail, c.quantum);
    var end := c.Tick(now) + m;
    CeilDivCovers(-o.level.avail, c.quantum);
    TickMonotone(c, c.startTime, now);
    TickOfEndTime(c, end);
    DebtCovered(c, o.level, now + o.wait, m);
    EndIsLater(c, now, end);
  }

  /** With `m` ticks of refill a debt of as many quanta is covered. */
  lemma DebtCovered(c: Config, l: Level, now: int, m: int)
    requires c.Ok() && l.avail < 0 && m * c.quantum >= -l.avail && c.Tick(now) - l.availTick >= m
    ensures Adjusted(c, l, now).avail >= 0
  {
    var ticks := c.Tick(now) - l.availTick;
    MulMonotone(c.quantum, m, ticks);
    assert ticks * c.quantum == c.quantum * ticks && m * c.quantum == c.quantum * m;
  }

  lemma EndIsLater(c: Config, now: int, end: int)
    requires c.Ok() && c.startTime <= now && end > c.Tick(now)
    ensures c.EndTime(end) > now
  {
    var d := now - c.startTime;
    assert d == (d / c.fillInterval) * c.fillInterval + d % c.fillInterval;
    MulMonotone(c.fillInterval, c.Tick(now) + 1, end);
    assert c.fillInterval * (c.Tick(now) + 1) == (d / c.fillInterval) * c.fillInterval + c.fillInterval;
    assert c.fillInterval * end == end * c.fillInterval;
  }

  /**
   The tick waited for is the first at which the debt is covered exactly when the level left behind counts
   ticks up to now, that is, unless the bucket was full with a tick count that had fallen behind.
   */
  lemma WaitIsLeast(c: Config, l: Level, now: int, count: int, maxWait: int)
    requires c.Ok() && c.startTime <= now && LevelOk(c, l, c.Tick(now))
    requires var o := Serve(c, l, Request.Take(now, count, maxWait)); o.ok && o.wait != 0
    ensures var o := Serve(c, l, Request.Take(now, count, maxWait));
            (forall t :: now <= t < now + o.wait ==> Adjusted(c, o.level, t).avail < 0)
            <==> (l.avail < c.capacity || l.availTick == c.Tick(now))
  {
    AcceptedWait(c, l, now, count, maxWait);
    WaitIsLongEnough(c, l, now, count, maxWait);
    hide Serve;
    var o := Serve(c, l, Request.Take(now, count, maxWait));
    var m := CeilDiv(-o.level.avail, c.quantum);
    CeilDivCovers(-o.level.avail, c.quantum);
    if o.level.availTick == c.Tick(now) {
      forall t | now <= t < now + o.wait ensures Adjusted(c, o.level, t).avail < 0 {
        TickMonotone(c, now, t);
        BeforeEnd(c, t, c.Tick(now) + m);
        assert c.Tick(t) - o.level.availTick < m;
      }
    } else {
      var t := c.EndTime(c.Tick(now) + m - 1);
      TickMonotone(c, c.startTime, now);
      TickOfEndTime(c, c.Tick(now) + m - 1);
      EarlierIsEnough(c, o.level, now, m);
    }
  }

  lemma BeforeEnd(c: Config, t: int, end: int)
    requires c.Ok() && c.startTime <= t < c.EndTime(end)
    ensures c.Tick(t) < end
  {
    var d := t - c.startTime;
    assert d == (d / c.fillInterval) * c.fillInterval + d % c.fillInterval;
    assert c.EndTime(end) == c.startTime + end * c.fillInterval;
    if c.Tick(t) >= end { MulMonotone(c.fillInterval, end, c.Tick(t)); }
  }

  /** With a tick count that has fallen behind, a moment before the end of the wait already covers the debt. */
  lemma EarlierIsEnough(c: Config, l: Level, now: int, m: int)
    requires c.Ok() && c.startTime <= now && LevelOk(c, l, c.Tick(now)) && l.avail < 0
    requires l.availTick < c.Tick(now) && m == CeilDiv(-l.avail, c.quantum) && m >= 1 && m * c.quantum >= -l.avail
    ensures var end := c.EndTime(c.Tick(now) + m);
            exists t :: now <= t < end && Adjusted(c, l, t).avail >= 0
  {
    var end := c.EndTime(c.Tick(now) + m);
    var t := Max(now, c.EndTime(c.Tick(now) + m - 1));
    TickMonotone(c, c.startTime, now);
    TickOfEndTime(c, c.Tick(now) + m - 1);
    EndIsLater(c, now, c.Tick(now) + m);
    assert c.EndTime(c.Tick(now) + m) == c.EndTime(c.Tick(now) + m - 1) + c.fillInterval;
    TickMonotone(c, c.EndTime(c.Tick(now) + m - 1), t);
    MulMonotone(c.quantum, m, c.Tick(t) - l.availTick);
    assert (c.Tick(t) - l.availTick) * c.quantum == c.quantum * (c.Tick(t) - l.availTick) &&
           m * c.quantum == c.quantum * m;
    assert now <= t < end && Adjusted(c, l, t).avail >= 0;
  }

  /** The level with the tokens of a Take gone, whether they are there or not. */
  function Charged(c: Config, l: Level, now: int, count: int): Level
    requires c.Ok()
  {
    var a := Adjusted(c, l, now);
    a.(avail := a.avail - count)
  }

  /** Within the time the taker is willing to wait, the refill makes up for the tokens gone. */
  ghost predicate InTime(c: Config, d: Level, now: int, maxWait: int)
    requires c.Ok()
  {
    exists t :: now <= t <= now + Max(0, maxWait) && Adjusted(c, d, t).avail >= 0
  }

  /**
   A Take is accepted only if the tokens will be there in time, and, unless the bucket was full with a tick count that
   had fallen behind, exactly then.  Accepted, it takes them all; refused, it takes none and only adjusts the level.
   */
  lemma AcceptedIffInTime(c: Config, l: Level, now: int, count: int, maxWait: int)
    requires c.Ok() && c.startTime <= now && LevelOk(c, l, c.Tick(now)) && count > 0
    ensures var o := Serve(c, l, Request.Take(now, count, maxWait));
            && (o.ok ==> InTime(c, Charged(c, l, now, count), now, maxWait))
            && (l.avail < c.capacity || l.availTick == c.Tick(now) ==>
                  (o.ok <==> InTime(c, Charged(c, l, now, count), now, maxWait)))
            && (if o.ok then o.taken == count && o.level == Charged(c, l, now, count)
                else o.taken == 0 && o.level == Adjusted(c, l, now))
  {
    hide Adjusted, CeilDiv;
    var d := Charged(c, l, now, count);
    if d.avail >= 0 {
      AdjustedFits(c, l, now);
      ThereAlready(c, d, now, maxWait);
    } else {
      // the same request from a taker who waits as long as it takes
      var w := c.EndTime(c.Tick(now) + CeilDiv(-d.avail, c.quantum)) - now;
      var patient := Serve(c, l, Request.Take(now, count, w));
      CeilDivCovers(-d.avail, c.quantum);
      EndIsLater(c, now, c.Tick(now) + CeilDiv(-d.avail, c.quantum));
      assert patient.ok && patient.wait == w && patient.level == d;
      WaitIsLongEnough(c, l, now, count, w);
      WaitIsLeast(c, l, now, count, w);
      if w <= maxWait { assert now <= now + w <= now + Max(0, maxWait) && Adjusted(c, d, now + w).avail >= 0; }
    }
  }

  lemma ThereAlready(c: Config, d: Level, now: int, maxWait: int)
    requires c.Ok() && c.startTime <= now && LevelOk(c, d, c.Tick(now)) && d.avail >= 0
    ensures InTime(c, d, now, maxWait)
  {
    MulMonotone(c.quantum, 0, c.Tick(now) - d.availTick);
    assert Adjusted(c, d, now).avail >= 0;
  }
}
