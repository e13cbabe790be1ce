/**
 The token bucket as it is meant: every tick adds a quantum as long as there is room, and a taker waits for the first
 tick that pays for its tokens.  The lazy bucket, which counts ticks only when it is asked, answers every run alike
 unless it is asked while full with a tick count that has fallen behind.
 */
module EagerBucket {
  import opened Common
  import opened TokenBucket

  /** Each of `ticks` ticks adds a quantum, up to the capacity. */
  function Refilled(c: Config, avail: int, ticks: nat): int {
    if ticks == 0 then avail else Min(Refilled(c, avail, ticks - 1) + c.quantum, c.capacity)
  }

  /** The ticks until a debt is paid, one quantum at a time. */
  function TicksToPay(c: Config, avail: int): nat
    requires c.Ok()
    decreases Max(0, -avail)
  {
    if avail >= 0 then 0 else 1 + TicksToPay(c, avail + c.quantum)
  }

  datatype Answer = Answer(taken: int, wait: int, ok: bool)

  /** The answer of a bucket that has `avail` tokens at the moment of the request; it keeps all it does not give. */
  function Respond(c: Config, avail: int, r: Request): Answer
    requires c.Ok()
  {
    if r.count <= 0 then Answer(0, 0, true)
    else
      match r
      case TakeAvailable(_, count) => Answer(Max(0, Min(count, avail)), 0, true)
      case Take(now, count, maxWait) =>
        if count <= avail then Answer(count, 0, true)
        else
          var wait := c.EndTime(c.Tick(now) + TicksToPay(c, avail - count)) - now;
          if wait <= maxWait then Answer(count, wait, true) else Answer(0, 0, false)
  }

  /** The answers to a run, from a bucket with `avail` tokens at `tick`. */
  function EagerAnswers(c: Config, avail: int, tick: int, rs: seq<Request>, from: int): seq<Answer>
    requires c.Ok() && c.startTime <= from && Clocked(rs, from) && tick <= c.Tick(from)
    decreases |rs|
  {
    if rs == [] then []
    else
      TickMonotone(c, from, rs[0].now);
      var now := c.Tick(rs[0].now);
      var there := Refilled(c, avail, now - tick);
      var a := Respond(c, there, rs[0]);
      [a] + EagerAnswers(c, there - a.taken, now, rs[1..], rs[0].now)
  }

  function AnswerOf(o: Outcome): Answer {
    Answer(o.taken, o.wait, o.ok)
  }

  /** The answers of the lazy bucket. */
  function LazyAnswers(c: Config, l: Level, rs: seq<Request>): seq<Answer>
    requires c.Ok()
    decreases |rs|
  {
    if rs == [] then [] else
      var o := Serve(c, l, rs[0]);
      [AnswerOf(o)] + LazyAnswers(c, o.level, rs[1..])
  }

  /** Nothing is asked of a full bucket whose tick count has fallen behind. */
  predicate NeverBehind(c: Config, l: Level, rs: seq<Request>)
    requires c.Ok()
    decreases |rs|
  {
    rs != [] ==>
      && (rs[0].count > 0 && l.avail == c.capacity ==> l.availTick == c.Tick(rs[0].now))
      && NeverBehind(c, Serve(c, l, rs[0]).level, rs[1..])
  }

  // ---------------------------------------------------------------- refilling

  /** Tick by tick or all at once. */
  lemma {:induction false} RefilledAtOnce(c: Config, avail: int, ticks: nat)
    requires c.Ok() && avail <= c.capacity
    ensures Refilled(c, avail, ticks) == Min(c.capacity, avail + c.quantum * ticks)
  {
    if ticks > 0 {
      RefilledAtOnce(c, avail, ticks - 1);
      assert c.quantum * ticks == c.quantum * (ticks - 1) + c.quantum;
    }
  }

  lemma {:induction false} RefilledTwice(c: Config, avail: int, i: nat, j: nat)
    ensures Refilled(c, Refilled(c, avail, i), j) == Refilled(c, avail, i + j)
  {
    if j > 0 { RefilledTwice(c, avail, i, j - 1); }
  }

  lemma {:induction false} PaidAtOnce(c: Config, debt: int)
    requires c.Ok() && debt > 0
    ensures TicksToPay(c, -debt) == CeilDiv(debt, c.quantum)
    decreases debt
  {
    hide CeilDiv;
    CeilDivCovers(debt, c.quantum);
    var m := CeilDiv(debt, c.quantum);
    if debt <= c.quantum {
      assert 1 * c.quantum >= debt;
    } else {
      PaidAtOnce(c, debt - c.quantum);
      CeilDivCovers(debt - c.quantum, c.quantum);
      var k := CeilDiv(debt - c.quantum, c.quantum);
      assert (k + 1) * c.quantum == k * c.quantum + c.quantum;
      assert (m - 1) * c.quantum == m * c.quantum - c.quantum;
    }
  }

  // ---------------------------------------------------------------- one request

  /** What there is at the moment of a request is what the ticks since the last one have refilled. */
  lemma ThereIs(c: Config, l: Level, now: int)
    requires c.Ok() && LevelOk(c, l, c.Tick(now)) && (l.avail == c.capacity ==> l.availTick == c.Tick(now))
    ensures Adjusted(c, l, now) == Level(Refilled(c, l.avail, c.Tick(now) - l.availTick), c.Tick(now))
  {
    var ticks := c.Tick(now) - l.availTick;
    RefilledAtOnce(c, l.avail, ticks);
    assert ticks * c.quantum == c.quantum * ticks;
  }

  /** The lazy bucket adjusts its level, and then answers like the other. */
  lemma AdjustedAnswers(c: Config, l: Level, r: Request)
    requires c.Ok() && r.count > 0
    ensures var o, a := Serve(c, l, r), Adjusted(c, l, r.now);
            AnswerOf(o) == Respond(c, a.avail, r) && o.level == a.(avail := a.avail - o.taken)
  {
    hide Adjusted, CeilDiv, TicksToPay;
    var a := Adjusted(c, l, r.now);
    if r.Take? && a.avail < r.count { PaidAtOnce(c, r.count - a.avail); }
  }

  /**
   The lazy bucket answers a run as the eager one that had the same tokens at the same tick, unless it is asked while
   full with a tick count that has fallen behind.
   */
  lemma {:induction false} LazyIsEager(c: Config, l: Level, avail: int, tick: int, rs: seq<Request>, from: int)
    requires c.Ok() && c.startTime <= from && Clocked(rs, from) && LevelOk(c, l, tick) && tick <= c.Tick(from)
    requires avail == Refilled(c, l.avail, tick - l.availTick) && NeverBehind(c, l, rs)
    ensures LazyAnswers(c, l, rs) == EagerAnswers(c, avail, tick, rs, from)
    decreases |rs|
  {
    hide Serve, Adjusted, Respond, Refilled;
    if rs != [] {
      var r := rs[0];
      var now := c.Tick(r.now);
      TickMonotone(c, from, r.now);
      ServePays(c, l, r);
      RefilledTwice(c, l.avail, tick - l.availTick, now - tick);
      var there := Refilled(c, avail, now - tick);
      var o := Serve(c, l, r);
      if r.count > 0 {
        ThereIs(c, l, r.now);
        AdjustedAnswers(c, l, r);
        NoTicks(c, o.level.avail);
      } else {
        NothingAsked(c, l, r);
        assert Respond(c, there, r) == Answer(0, 0, true) by { NothingGiven(c, there, r); }
      }
      LazyIsEager(c, o.level, there - o.taken, now, rs[1..], r.now);
    }
  }

  lemma NoTicks(c: Config, avail: int)
    ensures Refilled(c, avail, 0) == avail
  {
  }

  lemma NothingGiven(c: Config, avail: int, r: Request)
    requires c.Ok() && r.count <= 0
    ensures Respond(c, avail, r) == Answer(0, 0, true)
  {
  }

  /** From a level below capacity, TakeAvailable never finds a full bucket that has fallen behind. */
  lemma {:induction false} NotFullAgain(c: Config, l: Level, rs: seq<Request>, from: int)
    requires c.Ok() && c.startTime <= from && Clocked(rs, from) && OnlyTakeAvailable(rs)
    requires LevelOk(c, l, c.Tick(from)) && l.avail < c.capacity
    ensures NeverBehind(c, l, rs)
    decreases |rs|
  {
    hide Serve;
    if rs != [] {
      var r := rs[0];
      LevelLater(c, l, from, r.now);
      ServePays(c, l, r);
      BelowCapacity(c, l, r);
      NotFullAgain(c, Serve(c, l, r).level, rs[1..], r.now);
    }
  }

  lemma BelowCapacity(c: Config, l: Level, r: Request)
    requires c.Ok() && r.TakeAvailable? && l.avail < c.capacity
    ensures Serve(c, l, r).level.avail < c.capacity
  {
    hide Adjusted;
    assert Adjusted(c, l, r.now).avail <= c.capacity by { CappedAt(c, l, r.now); }
  }

  lemma CappedAt(c: Config, l: Level, now: int)
    requires c.Ok() && l.avail < c.capacity
    ensures Adjusted(c, l, now).avail <= c.capacity
  {
  }

  /** Any run of TakeAvailable from a level below capacity is answered as by a bucket that is refilled at every tick. */
  lemma AvailableIsEager(c: Config, l: Level, rs: seq<Request>, from: int)
    requires c.Ok() && c.startTime <= from && Clocked(rs, from) && OnlyTakeAvailable(rs)
    requires LevelOk(c, l, c.Tick(from)) && l.avail < c.capacity
    ensures var avail := Refilled(c, l.avail, c.Tick(from) - l.availTick);
            LazyAnswers(c, l, rs) == EagerAnswers(c, avail, c.Tick(from), rs, from)
  {
    NotFullAgain(c, l, rs, from);
    LazyIsEager(c, l, Refilled(c, l.avail, c.Tick(from) - l.availTick), c.Tick(from), rs, from);
  }
}
