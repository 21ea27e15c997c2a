/**
 * Tick scheduling: the cadence generator that computes absolute target
 * timestamps (with interval telemetry), and the timer whose per-millisecond
 * buckets of callbacks are drained in timestamp order. Wall-clock readings
 * are parameters.
 */
module Ticker {

  /** One record written to the telemetry sink. */
  datatype Event = Sampled(name: string, value: int) | Counted(name: string)

  /** The telemetry sink, kept as the trace of what was written to it. */
  class Writer {
    var events: seq<Event>

    constructor ()
      ensures events == []
    {
      events := [];
    }

    method Write(name: string, value: int)
      modifies this
      ensures events == old(events) + [Sampled(name, value)]
    {
      events := events + [Sampled(name, value)];
    }

    method Count(name: string)
      modifies this
      ensures events == old(events) + [Counted(name)]
    {
      events := events + [Counted(name)];
    }
  }

  /** How an interval between two ticks compares with the configured rate. */
  datatype TickClass = Overrun | Underrun | OnTime

  /**
   * Longer than rate + 1 is an overrun, shorter than floor(rate - 1) an
   * underrun, anything in between on time.
   */
  function Classify(interval: int, rate: real): (c: TickClass)
    ensures c == Overrun <==> interval as real > rate + 1.0
    ensures c == OnTime <==> (rate - 1.0).Floor <= interval && interval as real <= rate + 1.0
    ensures c == Underrun ==> (interval as real) < rate - 1.0
  {
    if interval as real > rate + 1.0 then Overrun
    else if interval < (rate - 1.0).Floor then Underrun
    else OnTime
  }

  function CounterName(c: TickClass): string
  {
    match c
    case Overrun => "tickIntervalOverrun"
    case Underrun => "tickIntervalUnderrun"
    case OnTime => "tickOnTime"
  }

  /** What one call writes: nothing on the first call, else the interval and one counter. */
  function Telemetry(previousNow: int, now: int, rate: real): seq<Event>
  {
    if previousNow == 0 then []
    else [Sampled("tickInterval", now - previousNow), Counted(CounterName(Classify(now - previousNow, rate)))]
  }

  /** Every call after the first writes the interval and increments exactly one of the three counters. */
  lemma TelemetryCountsOnce(previousNow: int, now: int, rate: real)
    requires previousNow != 0
    ensures var evs := Telemetry(previousNow, now, rate);
      && |evs| == 2 && evs[0] == Sampled("tickInterval", now - previousNow) && evs[1].Counted?
      && (evs[1].name == "tickIntervalOverrun" <==> (now - previousNow) as real > rate + 1.0)
      && (evs[1].name == "tickOnTime" <==>
            (rate - 1.0).Floor <= now - previousNow && (now - previousNow) as real <= rate + 1.0)
      && (evs[1].name == "tickIntervalOverrun" || evs[1].name == "tickIntervalUnderrun" || evs[1].name == "tickOnTime")
  {
  }

  /** The target a call returns and the absolute target it keeps for the next call. */
  datatype Cadence = Cadence(target: int, next: real)

  /**
   * One step of the cadence generator at wall-clock time now: a late call
   * (now past floor(next)) resynchronises to now + 1; otherwise the target
   * is floor(next) and next moves on by one rate, so no drift accumulates.
   */
  function Step(next: real, now: int, rate: real): (c: Cadence)
    ensures c.target >= now
    ensures now > next.Floor ==> c.target == now + 1 && c.next == (now + 1) as real + rate
    ensures now <= next.Floor ==> c.target == next.Floor && c.next == next + rate
  {
    if now > next.Floor then Cadence(now + 1, (now + 1) as real + rate)
    else Cadence(next.Floor, next + rate)
  }

  /** The targets returned by successive calls at the wall-clock times nows. */
  function Cadences(next: real, nows: seq<int>, rate: real): (targets: seq<int>)
    ensures |targets| == |nows|
    ensures forall k :: 0 <= k < |nows| ==> targets[k] >= nows[k]
    decreases |nows|
  {
    if nows == [] then []
    else
      var c := Step(next, nows[0], rate);
      [c.target] + Cadences(c.next, nows[1..], rate)
  }

  /**
   * As long as no call is late, the k-th target is floor(next + k * rate):
   * the schedule stays anchored to its absolute start.
   */
  lemma {:induction false} OnTimeCallsKeepCadence(next: real, nows: seq<int>, rate: real)
    requires forall k :: 0 <= k < |nows| ==> nows[k] <= (next + (k as real) * rate).Floor
    ensures forall k :: 0 <= k < |nows| ==> Cadences(next, nows, rate)[k] == (next + (k as real) * rate).Floor
    decreases |nows|
  {
    if nows != [] {
      assert nows[0] <= (next + (0 as real) * rate).Floor;
      var c := Step(next, nows[0], rate);
      assert c.next == next + rate;
      forall k | 0 <= k < |nows| - 1
        ensures nows[1..][k] <= (c.next + (k as real) * rate).Floor
      {
        assert c.next + (k as real) * rate == next + ((k + 1) as real) * rate;
        assert nows[1..][k] == nows[k + 1];
      }
      OnTimeCallsKeepCadence(c.next, nows[1..], rate);
      forall k | 0 <= k < |nows|
        ensures Cadences(next, nows, rate)[k] == (next + (k as real) * rate).Floor
      {
        if k > 0 {
          assert c.next + ((k - 1) as real) * rate == next + (k as real) * rate;
        }
      }
    }
  }

  /**
   * The closure returned by `ticker`: it keeps the absolute target next,
   * the time of the previous call (0 before the first), the rate and the sink.
   */
  class TickRunner {
    const rate: real
    const writer: Writer
    var next: real
    var previousNow: int

    /** Created at wall-clock time start: the first target is start + rate. */
    constructor (rate: real, start: int, writer: Writer)
      ensures this.rate == rate && this.writer == writer
      ensures next == start as real + rate && previousNow == 0
    {
      this.rate := rate;
      this.writer := writer;
      next := start as real + rate;
      previousNow := 0;
    }

    /**
     * One call at wall-clock time now: reports the interval since the
     * previous call and returns the next target timestamp.
     */
    method Tick(now: int) returns (target: int)
      modifies this, writer
      ensures Cadence(target, next) == Step(old(next), now, rate)
      ensures target >= now
      ensures previousNow == now
      ensures writer.events == old(writer.events) + Telemetry(old(previousNow), now, rate)
    {
      var interval := now - previousNow;
      if previousNow != 0 {
        writer.Write("tickInterval", interval);
        if interval as real > rate + 1.0 {
          writer.Count("tickIntervalOverrun");
        } else if interval < (rate - 1.0).Floor {
          writer.Count("tickIntervalUnderrun");
        } else {
          writer.Count("tickOnTime");
        }
      }
      var flooredNext := next.Floor;
      if now > flooredNext {
        flooredNext := now + 1;
        next := flooredNext as real + rate;
      } else {
        next := next + rate;
      }
      previousNow := now;
      target := flooredNext;
    }
  }

  /** Callbacks are represented by opaque ids. */
  type CallbackId = nat

  /** The pending callbacks of one millisecond key, in insertion order. */
  function Bucket(cbs: map<int, seq<CallbackId>>, key: int): seq<CallbackId>
  {
    if key in cbs then cbs[key] else []
  }

  /** The callbacks of keys lo, lo + 1, ..., hi - 1, key by key. */
  function Drain(cbs: map<int, seq<CallbackId>>, lo: int, hi: int): seq<CallbackId>
    decreases hi - lo
  {
    if hi <= lo then [] else Drain(cbs, lo, hi - 1) + Bucket(cbs, hi - 1)
  }

  /** cbs without the keys lo .. hi - 1. */
  function Forget(cbs: map<int, seq<CallbackId>>, lo: int, hi: int): (m: map<int, seq<CallbackId>>)
    ensures forall k :: k in m <==> k in cbs && !(lo <= k < hi)
    ensures forall k :: k in m ==> m[k] == cbs[k]
  {
    map k | k in cbs && !(lo <= k < hi) :: cbs[k]
  }

  /**
   * Where a drain starting at last stops: at start, unless the budget of
   * loop iterations runs out first; never beyond start, never backwards.
   */
  function DrainEnd(last: int, start: int, budget: nat): (stop: int)
    ensures last <= stop && stop - last <= budget
    ensures last < start ==> stop <= start
    ensures last >= start ==> stop == last
    ensures budget >= start - last ==> stop == (if last < start then start else last)
  {
    if last >= start then last
    else if start - last <= budget then start
    else last + budget
  }

  /** Draining a range in two pieces invokes what draining it at once does. */
  lemma {:induction false} DrainSplit(cbs: map<int, seq<CallbackId>>, lo: int, mid: int, hi: int)
    requires lo <= mid <= hi
    ensures Drain(cbs, lo, hi) == Drain(cbs, lo, mid) + Drain(cbs, mid, hi)
    decreases hi - mid
  {
    if hi > mid {
      DrainSplit(cbs, lo, mid, hi - 1);
    }
  }

  /** A drain only looks at the keys of its range. */
  lemma {:induction false} DrainReadsOnlyRange(cbs: map<int, seq<CallbackId>>, other: map<int, seq<CallbackId>>,
                                               lo: int, hi: int)
    requires forall k :: lo <= k < hi ==> Bucket(cbs, k) == Bucket(other, k)
    ensures Drain(cbs, lo, hi) == Drain(other, lo, hi)
    decreases hi - lo
  {
    if hi > lo {
      DrainReadsOnlyRange(cbs, other, lo, hi - 1);
    }
  }

  /** An empty timer invokes nothing, whatever the range. */
  lemma {:induction false} DrainEmpty(lo: int, hi: int)
    ensures Drain(map[], lo, hi) == []
    decreases hi - lo
  {
    if hi > lo {
      DrainEmpty(lo, hi - 1);
    }
  }

  /**
   * A drain cut short by its budget and resumed later, on the buckets that
   * are left, invokes exactly what one uninterrupted drain would.
   */
  lemma ResumedDrainMatchesOneDrain(cbs: map<int, seq<CallbackId>>, lo: int, mid: int, hi: int)
    requires lo <= mid <= hi
    ensures Drain(cbs, lo, mid) + Drain(Forget(cbs, lo, mid), mid, hi) == Drain(cbs, lo, hi)
  {
    DrainReadsOnlyRange(Forget(cbs, lo, mid), cbs, mid, hi);
    DrainSplit(cbs, lo, mid, hi);
  }

  class Timer {
    var cbs: map<int, seq<CallbackId>>
    var lastUpdateTime: int

    /** Created at wall-clock time now, with no pending callbacks. */
    constructor (now: int)
      ensures cbs == map[] && lastUpdateTime == now
    {
      cbs := map[];
      lastUpdateTime := now;
    }

    /** `Timer.create`: a new timer whose first drain, at start, finds nothing to invoke. */
    static method Create(now: int, start: int, budget: nat) returns (t: Timer, invoked: seq<CallbackId>)
      ensures fresh(t)
      ensures invoked == [] && t.cbs == map[] && t.lastUpdateTime == DrainEnd(now, start, budget)
    {
      t := new Timer(now);
      invoked := t.Run(start, budget);
      DrainEmpty(now, t.lastUpdateTime);
    }

    /** Appends cb to the bucket of key when, creating the bucket if there is none. */
    method Add(cb: CallbackId, when: int)
      modifies this
      ensures cbs == old(cbs)[when := Bucket(old(cbs), when) + [cb]]
      ensures lastUpdateTime == old(lastUpdateTime)
    {
      var bucket: seq<CallbackId>;
      if when in cbs {
        bucket := cbs[when];
      } else {
        bucket := [];
        cbs := cbs[when := bucket];
      }
      cbs := cbs[when := bucket + [cb]];
    }

    /**
     * One invocation of the driver at wall-clock time start: visits the keys
     * lastUpdateTime, lastUpdateTime + 1, ... below start, invoking and then
     * deleting each bucket, until the budget of iterations (the 2 ms slice)
     * is spent. Returns the callbacks invoked, in order.
     */
    method Run(start: int, budget: nat) returns (invoked: seq<CallbackId>)
      modifies this
      ensures lastUpdateTime == DrainEnd(old(lastUpdateTime), start, budget)
      ensures invoked == Drain(old(cbs), old(lastUpdateTime), lastUpdateTime)
      ensures cbs == Forget(old(cbs), old(lastUpdateTime), lastUpdateTime)
      ensures forall k :: k in old(cbs) && (k < old(lastUpdateTime) || k >= start) ==> k in cbs && cbs[k] == old(cbs)[k]
    {
      invoked := [];
      var steps: nat := 0;
      while lastUpdateTime < start
        invariant lastUpdateTime == old(lastUpdateTime) + steps && steps <= budget
        invariant old(lastUpdateTime) < start ==> lastUpdateTime <= start
        invariant old(lastUpdateTime) >= start ==> steps == 0
        invariant invoked == Drain(old(cbs), old(lastUpdateTime), lastUpdateTime)
        invariant cbs == Forget(old(cbs), old(lastUpdateTime), lastUpdateTime)
        decreases start - lastUpdateTime
      {
        if steps >= budget {
          break;
        }
        if lastUpdateTime in cbs {
          var bucket := cbs[lastUpdateTime];
          for i := 0 to |bucket|
            invariant invoked == Drain(old(cbs), old(lastUpdateTime), lastUpdateTime) + bucket[..i]
          {
            invoked := invoked + [bucket[i]];
          }
          assert bucket[..|bucket|] == bucket;
        }
        cbs := cbs - {lastUpdateTime};
        lastUpdateTime := lastUpdateTime + 1;
        steps := steps + 1;
      }
    }
  }

  /**
   * Two successive driver invocations, the second at the same or a later
   * wall-clock time, invoke in order what one drain from the first
   * lastUpdateTime to where the second stopped would; the second resumes
   * where the first stopped. At the same start this is one drain with the
   * combined budget.
   */
  method RunResumes(t: Timer, start1: int, start2: int, budget1: nat, budget2: nat) returns (first: seq<CallbackId>, second: seq<CallbackId>)
    requires start1 <= start2
    modifies t
    ensures first + second == Drain(old(t.cbs), old(t.lastUpdateTime), t.lastUpdateTime)
    ensures t.lastUpdateTime == DrainEnd(DrainEnd(old(t.lastUpdateTime), start1, budget1), start2, budget2)
    ensures start1 == start2 ==> t.lastUpdateTime == DrainEnd(old(t.lastUpdateTime), start1, budget1 + budget2)
    ensures t.cbs == Forget(old(t.cbs), old(t.lastUpdateTime), t.lastUpdateTime)
  {
    ghost var cbs0, last0 := t.cbs, t.lastUpdateTime;
    first := t.Run(start1, budget1);
    ghost var mid := t.lastUpdateTime;
    second := t.Run(start2, budget2);
    ResumedDrainMatchesOneDrain(cbs0, last0, mid, t.lastUpdateTime);
    assert Forget(Forget(cbs0, last0, mid), mid, t.lastUpdateTime) == Forget(cbs0, last0, t.lastUpdateTime);
  }
}
