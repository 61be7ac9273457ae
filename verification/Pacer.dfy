/** A token bucket with a pause, over exact numbers: tokens, and times in milliseconds, are reals. */
module Pacing {

  /** `rate` tokens a second, at most `burst` of them. */
  datatype Bucket = Bucket(rate: real, burst: real, tokens: real, last: real, pausedUntil: real)

  function Min(a: real, b: real): real { if a < b then a else b }
  function Max(a: real, b: real): real { if a < b then b else a }

  predicate Fit(b: Bucket) { b.rate > 0.0 && b.burst >= 0.0 }

  /** What runs in over `ms` milliseconds. */
  function Flow(rate: real, ms: real): real { (ms / 1000.0) * rate }

  function Refilled(b: Bucket, now: real): Bucket {
    b.(tokens := Min(b.burst, b.tokens + Flow(b.rate, now - b.last)), last := now)
  }

  function Clamped(b: Bucket, cost: real): real { Min(cost, b.burst) }

  /** Whether the bucket, filled up to `now`, gives `cost` tokens. */
  predicate Gives(b: Bucket, now: real, cost: real) {
    b.pausedUntil - now <= 0.0 && Refilled(b, now).tokens >= Clamped(b, cost)
  }

  function Taken(b: Bucket, now: real, cost: real): Bucket {
    var full := Refilled(b, now);
    if Gives(b, now, cost) then full.(tokens := full.tokens - Clamped(b, cost)) else full
  }

  /** The time till the bucket could give `cost`, or till the pause is over. */
  function Wait(b: Bucket, now: real, cost: real): real
    requires b.rate > 0.0
  {
    Max(Max(b.pausedUntil - now, ((Clamped(b, cost) - Refilled(b, now).tokens) / b.rate) * 1000.0), 1.0)
  }

  function Paused(b: Bucket, now: real, ms: real): Bucket {
    b.(pausedUntil := Max(b.pausedUntil, now + ms), tokens := 0.0)
  }

  class Pacer {
    var rate: real
    var burst: real
    var tokens: real
    var last: real
    var pausedUntil: real

    ghost function Contents(): Bucket
      reads this
    {
      Bucket(rate, burst, tokens, last, pausedUntil)
    }

    constructor (rate: real, burst: real, start: real, now: real)
      ensures Contents() == Bucket(rate, burst, start, now, 0.0)
    {
      this.rate, this.burst, tokens, last, pausedUntil := rate, burst, start, now, 0.0;
    }

    method Configure(rate: real, burst: real, now: real)
      modifies this
      ensures Contents() == Bucket(rate, burst, burst, now, old(pausedUntil))
    {
      this.rate, this.burst, tokens, last := rate, burst, burst, now;
    }

    method Pause(now: real, ms: real)
      modifies this
      ensures Contents() == Paused(old(Contents()), now, ms)
    {
      pausedUntil := Max(pausedUntil, now + ms);
      tokens := 0.0;
    }

    /** One turn of the retry loop: the tokens, or how long to wait for them. */
    method TryTake(now: real, cost: real) returns (granted: bool, wait: real)
      requires rate > 0.0
      modifies this
      ensures Contents() == Taken(old(Contents()), now, cost)
      ensures granted <==> Gives(old(Contents()), now, cost)
      ensures !granted ==> wait == Wait(old(Contents()), now, cost)
    {
      var clamped := Min(cost, burst);
      tokens := Min(burst, tokens + ((now - last) / 1000.0) * rate);
      last := now;
      wait := 0.0;
      var paused := pausedUntil - now;
      if paused <= 0.0 && tokens >= clamped {
        tokens := tokens - clamped;
        return true, wait;
      }
      var refill := ((clamped - tokens) / rate) * 1000.0;
      return false, Max(Max(paused, refill), 1.0);
    }
  }

  // ---- Runs ---------------------------------------------------------------------------------

  datatype Event = Try(time: real, cost: real) | Hold(time: real, ms: real)

  function Step(b: Bucket, e: Event): Bucket {
    match e
    case Try(now, cost) => Taken(b, now, cost)
    case Hold(now, ms) => Paused(b, now, ms)
  }

  function Run(b: Bucket, events: seq<Event>, n: nat): Bucket
    requires n <= |events|
  {
    if n == 0 then b else Step(Run(b, events, n - 1), events[n - 1])
  }

  /** A clock that never runs back, and costs that are not negative. */
  ghost predicate Timely(b: Bucket, events: seq<Event>) {
    && (forall i | 0 <= i < |events| :: b.last <= events[i].time && (events[i].Try? ==> events[i].cost >= 0.0))
    && (forall i, j | 0 <= i < j < |events| :: events[i].time <= events[j].time)
  }

  predicate Granted(b: Bucket, events: seq<Event>, i: nat)
    requires i < |events|
  {
    events[i].Try? && Gives(Run(b, events, i), events[i].time, events[i].cost)
  }

  /** What event `i` took, if it is between `from` and `till`. */
  function GrantedAt(b: Bucket, events: seq<Event>, from: real, till: real, i: nat): real
    requires i < |events|
  {
    if Granted(b, events, i) && from <= events[i].time <= till then Clamped(Run(b, events, i), events[i].cost) else 0.0
  }

  /** What the first `n` events took between `from` and `till`. */
  function GrantedIn(b: Bucket, events: seq<Event>, from: real, till: real, n: nat): real
    requires n <= |events|
  {
    if n == 0 then 0.0 else GrantedIn(b, events, from, till, n - 1) + GrantedAt(b, events, from, till, n - 1)
  }

  lemma {:induction false} SameSize(b: Bucket, events: seq<Event>, n: nat)
    requires n <= |events|
    ensures Run(b, events, n).rate == b.rate && Run(b, events, n).burst == b.burst
  {
    if n > 0 {
      SameSize(b, events, n - 1);
    }
  }

  lemma {:induction false} LastBefore(b: Bucket, events: seq<Event>, n: nat, time: real)
    requires n <= |events| && b.last <= time && forall i | 0 <= i < n :: events[i].time <= time
    ensures Run(b, events, n).last <= time
  {
    if n > 0 {
      LastBefore(b, events, n - 1, time);
    }
  }

  lemma {:induction false} FlowAdds(rate: real, x: real, y: real)
    requires rate > 0.0 && x >= 0.0 && y >= 0.0
    ensures Flow(rate, x) >= 0.0 && Flow(rate, y) >= 0.0
    ensures Flow(rate, x + y) == Flow(rate, x) + Flow(rate, y)
  {
    var u, v := x / 1000.0, y / 1000.0;
    assert (x + y) / 1000.0 == u + v;
    assert u * rate + v * rate == (u + v) * rate;
  }

  /** What was taken, `sum`, and what is left are no more than a full bucket and what has run in
      since the first of it, `run`. */
  ghost predicate Bounded(burst: real, tokens: real, run: real, sum: real) {
    sum >= 0.0 && (sum > 0.0 ==> sum + tokens <= burst + run && tokens >= 0.0)
  }

  /** The bound over one refill, by `more`, and what is then taken, `got`. */
  lemma {:induction false} StillBounded(burst: real, tokens: real, run: real, sum: real, more: real, got: real)
    requires Bounded(burst, tokens, run, sum) && burst >= 0.0 && more >= 0.0 && run + more >= 0.0
    requires 0.0 <= got && (got > 0.0 ==> got <= Min(burst, tokens + more))
    ensures Bounded(burst, Min(burst, tokens + more) - got, run + more, sum + got)
  {
  }

  /** The bound of what was taken from `from` on. */
  ghost predicate RunBound(b: Bucket, from: real, sum: real) {
    (sum > 0.0 ==> b.last >= from) && Bounded(b.burst, b.tokens, Flow(b.rate, b.last - from), sum)
  }

  /** What had run in before a try at `now`, and what runs in with it. */
  lemma {:induction false} BeforeTry(b: Bucket, from: real, sum: real, now: real) returns (run: real, more: real)
    requires Fit(b) && RunBound(b, from, sum) && b.last <= now && from <= now
    ensures more == Flow(b.rate, now - b.last) && more >= 0.0
    ensures run + more == Flow(b.rate, now - from) && run + more >= 0.0
    ensures Bounded(b.burst, b.tokens, run, sum)
  {
    FlowAdds(b.rate, now - b.last, 0.0);
    FlowAdds(b.rate, now - from, 0.0);
    more := Flow(b.rate, now - b.last);
    run := Flow(b.rate, now - from) - more;
    if sum > 0.0 {
      FlowAdds(b.rate, b.last - from, now - b.last);
      assert (b.last - from) + (now - b.last) == now - from;
    }
  }

  lemma {:induction false} TakenBounded(b: Bucket, from: real, sum: real, now: real, cost: real)
    requires Fit(b) && RunBound(b, from, sum) && cost >= 0.0 && b.last <= now
    ensures RunBound(Taken(b, now, cost), from, sum + if Gives(b, now, cost) && from <= now then Clamped(b, cost) else 0.0)
  {
    if from <= now {
      var run, more := BeforeTry(b, from, sum, now);
      var got := if Gives(b, now, cost) then Clamped(b, cost) else 0.0;
      assert Refilled(b, now).tokens == Min(b.burst, b.tokens + more);
      StillBounded(b.burst, b.tokens, run, sum, more, got);
    }
  }

  lemma {:induction false} StepBounded(b: Bucket, from: real, sum: real, e: Event)
    requires Fit(b) && RunBound(b, from, sum) && b.last <= e.time && (e.Try? ==> e.cost >= 0.0)
    ensures var got := if e.Try? && Gives(b, e.time, e.cost) && from <= e.time then Clamped(b, e.cost) else 0.0;
      RunBound(Step(b, e), from, sum + got)
  {
    if e.Try? {
      TakenBounded(b, from, sum, e.time, e.cost);
    }
  }

  lemma {:induction false} RunBounded(b: Bucket, events: seq<Event>, from: real, till: real, n: nat)
    requires Fit(b) && Timely(b, events) && n <= |events| && forall i | 0 <= i < n :: events[i].time <= till
    ensures RunBound(Run(b, events, n), from, GrantedIn(b, events, from, till, n))
  {
    if n > 0 {
      RunBounded(b, events, from, till, n - 1);
      SameSize(b, events, n - 1);
      LastBefore(b, events, n - 1, events[n - 1].time);
      StepBounded(Run(b, events, n - 1), from, GrantedIn(b, events, from, till, n - 1), events[n - 1]);
    }
  }

  /** How many of the events come no later than `till`. */
  function CountTill(events: seq<Event>, till: real, n: nat): (k: nat)
    requires n <= |events|
    ensures k <= n
  {
    if n == 0 then 0 else if events[n - 1].time <= till then n else CountTill(events, till, n - 1)
  }

  lemma {:induction false} TillIsPrefix(b: Bucket, events: seq<Event>, from: real, till: real, n: nat)
    requires Timely(b, events) && n <= |events|
    ensures GrantedIn(b, events, from, till, n) == GrantedIn(b, events, from, till, CountTill(events, till, n))
    ensures forall i | 0 <= i < CountTill(events, till, n) :: events[i].time <= till
  {
    if n > 0 && events[n - 1].time > till {
      TillIsPrefix(b, events, from, till, n - 1);
    }
  }

  lemma {:induction false} WithinFlow(b: Bucket, from: real, till: real, sum: real)
    requires Fit(b) && RunBound(b, from, sum) && from <= till && (sum > 0.0 ==> b.last <= till)
    ensures sum <= b.burst + Flow(b.rate, till - from)
  {
    FlowAdds(b.rate, till - from, 0.0);
    if sum > 0.0 {
      FlowAdds(b.rate, b.last - from, till - b.last);
      assert (b.last - from) + (till - b.last) == till - from;
    }
  }

  /** Whatever is asked for and however often the pacer is paused, what is granted between any two
      times is at most a full bucket and what runs in between them. */
  lemma {:induction false} WindowBound(b: Bucket, events: seq<Event>, from: real, till: real)
    requires Fit(b) && Timely(b, events) && from <= till
    ensures GrantedIn(b, events, from, till, |events|) <= b.burst + Flow(b.rate, till - from)
  {
    var k := CountTill(events, till, |events|);
    TillIsPrefix(b, events, from, till, |events|);
    RunBounded(b, events, from, till, k);
    SameSize(b, events, k);
    if k > 0 {
      assert events[0].time <= till;
      LastBefore(b, events, k, till);
    }
    WithinFlow(Run(b, events, k), from, till, GrantedIn(b, events, from, till, k));
  }

  lemma {:induction false} PauseLasts(b: Bucket, events: seq<Event>, i: nat, n: nat)
    requires i < n <= |events| && events[i].Hold?
    ensures Run(b, events, n).pausedUntil >= events[i].time + events[i].ms
    decreases n
  {
    if i < n - 1 {
      PauseLasts(b, events, i, n - 1);
    }
  }

  /** Nothing is granted before a pause is over. */
  lemma {:induction false} NothingWhilePaused(b: Bucket, events: seq<Event>, i: nat, j: nat)
    requires i < j < |events| && events[i].Hold? && Granted(b, events, j)
    ensures events[j].time >= events[i].time + events[i].ms
  {
    PauseLasts(b, events, i, j);
  }

  lemma {:induction false} RunsIn(rate: real, need: real, ms: real)
    requires rate > 0.0 && ms >= (need / rate) * 1000.0
    ensures Flow(rate, ms) >= need
  {
    var seconds := need / rate;
    assert ms / 1000.0 >= seconds;
    assert (ms / 1000.0 - seconds) * rate >= 0.0;
    assert seconds * rate == need;
  }

  /** Who waits as long as told, with nobody else asking meanwhile, is granted at the next try. */
  lemma {:induction false} WaitIsEnough(b: Bucket, now: real, cost: real, later: real)
    requires Fit(b) && !Gives(b, now, cost) && later >= now + Wait(b, now, cost)
    ensures Gives(Taken(b, now, cost), later, cost)
  {
    var full := Refilled(b, now);
    RunsIn(b.rate, Clamped(b, cost) - full.tokens, later - now);
    assert Refilled(full, later).tokens == Min(b.burst, full.tokens + Flow(b.rate, later - now));
  }
}
