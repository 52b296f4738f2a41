/** The rate gate of `src/lib/api.ts` (`StockAPI.executeRequest`): a counter of calls
    in the current minute, the time of the last admitted call, and a FIFO of deferred
    requests. Time is a parameter; a request completes within the call that runs it. */
module RateGate {
  import opened Wrappers

  const CallsPerMinute: nat := 5
  const Minute: int := 60000

  /** The three module-level variables the gate works on. */
  datatype GateState<T> = GateState(calls: nat, lastCallTime: int, queue: seq<T>)

  /** What one `executeRequest` did: whether the new request ran at once, and which
      queued request, if any, was started after it. */
  datatype Outcome<T> = Outcome(ran: bool, dispatched: Option<T>)

  /** The initial values of the module variables. */
  function Initial<T>(): GateState<T> {
    GateState(0, 0, [])
  }

  /** The window check at the start of every call: a minute after the last admitted
      call the counter restarts from zero. */
  function Reset<T>(s: GateState<T>, now: int): (r: GateState<T>)
    ensures r.queue == s.queue
    ensures now - s.lastCallTime >= Minute ==> r.calls == 0 && r.lastCallTime == now
    ensures now - s.lastCallTime < Minute ==> r == s
  {
    if now - s.lastCallTime >= Minute then GateState(0, now, s.queue) else s
  }

  /** One `executeRequest(request)` at time `now`; `resolves` says whether `request()`
      resolves when it is run. A rejection propagates out of the `await` and skips the
      drain. Its properties are the lemmas below. */
  function Step<T>(s: GateState<T>, now: int, request: T, resolves: bool): (r: (GateState<T>, Outcome<T>))
    ensures s.calls <= CallsPerMinute ==> r.0.calls <= CallsPerMinute
  {
    var w := Reset(s, now);
    if w.calls >= CallsPerMinute then
      (w.(queue := w.queue + [request]), Outcome(false, None))
    else if resolves && w.queue != [] && w.calls + 1 < CallsPerMinute then
      (GateState(w.calls + 1, now, w.queue[1..]), Outcome(true, Some(w.queue[0])))
    else
      (GateState(w.calls + 1, now, w.queue), Outcome(true, None))
  }

  /** A minute after the last admitted call, the request runs at once and opens a new window. */
  lemma ResetAdmits<T>(s: GateState<T>, now: int, request: T, resolves: bool)
    requires now - s.lastCallTime >= Minute
    ensures var (s', o) := Step(s, now, request, resolves);
      o.ran && s'.calls == 1 && s'.lastCallTime == now
  {
  }

  /** A saturated gate appends the request at the tail of the queue and changes nothing else. */
  lemma SaturatedQueues<T>(s: GateState<T>, now: int, request: T, resolves: bool)
    requires now - s.lastCallTime < Minute && s.calls >= CallsPerMinute
    ensures Step(s, now, request, resolves) == (s.(queue := s.queue + [request]), Outcome(false, None))
  {
  }

  /** An admitted request adds exactly one to the (possibly reset) counter and moves
      the window's start to now. */
  lemma AdmittedCounts<T>(s: GateState<T>, now: int, request: T, resolves: bool)
    ensures var (s', o) := Step(s, now, request, resolves);
      o.ran ==> s'.lastCallTime == now && s'.calls == Reset(s, now).calls + 1
    ensures var (s', o) := Step(s, now, request, resolves);
      o.ran <==> Reset(s, now).calls < CallsPerMinute
  {
  }

  /** After an admitted request that resolves, at most one queued request is started:
      the head, only while there is headroom left, and without counting it. A request
      that rejects starts nothing. */
  lemma DrainsHead<T>(s: GateState<T>, now: int, request: T, resolves: bool)
    ensures var (s', o) := Step(s, now, request, resolves);
      o.dispatched.Some? <==> o.ran && resolves && s.queue != [] && s'.calls < CallsPerMinute
    ensures var (s', o) := Step(s, now, request, resolves);
      o.dispatched.Some? ==> o.dispatched.value == s.queue[0] && s'.queue == s.queue[1..]
                             && s'.calls == Reset(s, now).calls + 1
    ensures var (s', o) := Step(s, now, request, resolves);
      o.ran && o.dispatched.None? ==> s'.queue == s.queue
  {
  }

  /** The module variables of `api.ts` as the fields of one object. */
  class RateGate<T> {
    var callsThisMinute: nat
    var lastCallTime: int
    var requestQueue: seq<T>

    ghost function State(): GateState<T>
      reads this
    {
      GateState(callsThisMinute, lastCallTime, requestQueue)
    }

    ghost predicate Valid()
      reads this
    {
      callsThisMinute <= CallsPerMinute
    }

    constructor ()
      ensures Valid() && State() == Initial()
    {
      callsThisMinute, lastCallTime, requestQueue := 0, 0, [];
    }

    /** `executeRequest(request)` at time `now`, where `resolves` is how `request()`
        settles if it is run. `ran` says whether `request` was executed now (otherwise
        it waits at the tail of the queue); `dispatched` is the queued request started
        after it, called directly and so not counted. */
    method ExecuteRequest(now: int, request: T, resolves: bool) returns (ran: bool, dispatched: Option<T>)
      requires Valid()
      modifies this
      ensures Valid()
      ensures (State(), Outcome(ran, dispatched)) == Step(old(State()), now, request, resolves)
    {
      if now - lastCallTime >= Minute {
        callsThisMinute := 0;
        lastCallTime := now;
      }
      if callsThisMinute >= CallsPerMinute {
        requestQueue := requestQueue + [request];
        return false, None;
      }
      callsThisMinute := callsThisMinute + 1;
      lastCallTime := now;
      ran := true;
      dispatched := None;
      if !resolves {
        return;
      }
      if |requestQueue| > 0 && callsThisMinute < CallsPerMinute {
        dispatched := Some(requestQueue[0]);
        requestQueue := requestQueue[1..];
      }
    }
  }

  /** A call of `executeRequest`: when it happens, what it asks to run, and whether
      that request resolves once run. Each call settles before the next one arrives. */
  datatype Arrival<T> = Arrival(now: int, request: T, resolves: bool)

  /** The requests that reach the provider in one step, in the order they start. */
  function Started<T>(request: T, o: Outcome<T>): seq<T> {
    (if o.ran then [request] else []) + (if o.dispatched.Some? then [o.dispatched.value] else [])
  }

  /** The state after a sequence of calls. */
  function Final<T>(s: GateState<T>, arrivals: seq<Arrival<T>>): GateState<T>
    decreases |arrivals|
  {
    if arrivals == [] then s
    else Final(Step(s, arrivals[0].now, arrivals[0].request, arrivals[0].resolves).0, arrivals[1..])
  }

  /** Every request that reaches the provider during a sequence of calls, in order. */
  function Executed<T>(s: GateState<T>, arrivals: seq<Arrival<T>>): seq<T>
    decreases |arrivals|
  {
    if arrivals == [] then []
    else
      var r := Step(s, arrivals[0].now, arrivals[0].request, arrivals[0].resolves);
      Started(arrivals[0].request, r.1) + Executed(r.0, arrivals[1..])
  }

  /** The requests put in the queue during a sequence of calls, in order. */
  function Queued<T>(s: GateState<T>, arrivals: seq<Arrival<T>>): seq<T>
    decreases |arrivals|
  {
    if arrivals == [] then []
    else
      var r := Step(s, arrivals[0].now, arrivals[0].request, arrivals[0].resolves);
      (if r.1.ran then [] else [arrivals[0].request]) + Queued(r.0, arrivals[1..])
  }

  /** The queued requests started during a sequence of calls, in order. */
  function Dispatched<T>(s: GateState<T>, arrivals: seq<Arrival<T>>): seq<T>
    decreases |arrivals|
  {
    if arrivals == [] then []
    else
      var r := Step(s, arrivals[0].now, arrivals[0].request, arrivals[0].resolves);
      (if r.1.dispatched.Some? then [r.1.dispatched.value] else []) + Dispatched(r.0, arrivals[1..])
  }

  /** The requests of a sequence of calls. */
  function Requests<T>(arrivals: seq<Arrival<T>>): (r: seq<T>)
    ensures |r| == |arrivals|
    ensures forall i :: 0 <= i < |arrivals| ==> r[i] == arrivals[i].request
    decreases |arrivals|
  {
    if arrivals == [] then []
    else
      var t := Requests(arrivals[1..]);
      [arrivals[0].request] + t
  }

  predicate AllAt<T>(arrivals: seq<Arrival<T>>, now: int) {
    forall i :: 0 <= i < |arrivals| ==> arrivals[i].now == now
  }

  lemma AllAtSuffix<T>(arrivals: seq<Arrival<T>>, now: int)
    requires arrivals != [] && AllAt(arrivals, now)
    ensures arrivals[0].now == now && AllAt(arrivals[1..], now)
  {
    forall i | 0 <= i < |arrivals| - 1 ensures arrivals[1..][i].now == now { assert arrivals[1..][i] == arrivals[i + 1]; }
  }

  function Min(a: int, b: int): int { if a <= b then a else b }

  /** Whatever the calls, the counter stays within the ceiling. */
  lemma {:induction false} RunKeepsCeiling<T>(s: GateState<T>, arrivals: seq<Arrival<T>>)
    requires s.calls <= CallsPerMinute
    ensures Final(s, arrivals).calls <= CallsPerMinute
    decreases |arrivals|
  {
    if arrivals != [] {
      RunKeepsCeiling(Step(s, arrivals[0].now, arrivals[0].request, arrivals[0].resolves).0, arrivals[1..]);
    }
  }

  /** FIFO: the queued requests are started in the order they were queued. What was
      waiting before, followed by what was queued since, is exactly what was started
      since, followed by what is still waiting. No request is lost or duplicated. */
  lemma {:induction false} RunIsFifo<T>(s: GateState<T>, arrivals: seq<Arrival<T>>)
    ensures s.queue + Queued(s, arrivals) == Dispatched(s, arrivals) + Final(s, arrivals).queue
    decreases |arrivals|
  {
    if arrivals != [] {
      var a := arrivals[0];
      var rest := arrivals[1..];
      var r := Step(s, a.now, a.request, a.resolves);
      var s1 := r.0;
      RunIsFifo(s1, rest);
      StepIsFifo(s, a.now, a.request, a.resolves);
      var e := if r.1.ran then [] else [a.request];
      var h := if r.1.dispatched.Some? then [r.1.dispatched.value] else [];
      assert Queued(s, arrivals) == e + Queued(s1, rest);
      assert Dispatched(s, arrivals) == h + Dispatched(s1, rest);
      assert Final(s, arrivals) == Final(s1, rest);
      Rebalance(s.queue, e, Queued(s1, rest), h, s1.queue, Dispatched(s1, rest), Final(s1, rest).queue);
    }
  }

  lemma Rebalance<T>(p: seq<T>, e: seq<T>, q: seq<T>, h: seq<T>, m: seq<T>, d: seq<T>, f: seq<T>)
    requires p + e == h + m && m + q == d + f
    ensures p + (e + q) == (h + d) + f
  {
    calc {
      p + (e + q);
      (p + e) + q;
      (h + m) + q;
      h + (m + q);
      h + (d + f);
    }
  }

  /** One step of the queue: what was waiting plus what was queued now equals what
      was started from the queue now plus what is waiting afterwards. */
  lemma StepIsFifo<T>(s: GateState<T>, now: int, request: T, resolves: bool)
    ensures var (s', o) := Step(s, now, request, resolves);
      s.queue + (if o.ran then [] else [request]) == (if o.dispatched.Some? then [o.dispatched.value] else []) + s'.queue
  {
    var w := Reset(s, now);
    assert w.queue == s.queue;
    if w.calls < CallsPerMinute && resolves && w.queue != [] && w.calls + 1 < CallsPerMinute {
      assert s.queue == [s.queue[0]] + s.queue[1..];
    }
  }

  /** A burst of calls at one instant into a window already opened at that instant,
      with `c` calls used and nothing waiting: the first `5 - c` run at once, the
      rest wait in arrival order. */
  lemma BurstInOpenWindow<T>(s: GateState<T>, now: int, arrivals: seq<Arrival<T>>)
    requires s.lastCallTime == now && s.queue == [] && s.calls <= CallsPerMinute
    requires AllAt(arrivals, now)
    ensures var k := Min(|arrivals|, CallsPerMinute - s.calls);
      Executed(s, arrivals) == Requests(arrivals)[..k] && Final(s, arrivals).queue == Requests(arrivals)[k..]
    ensures var k := Min(|arrivals|, CallsPerMinute - s.calls);
      Final(s, arrivals).calls == s.calls + k && Final(s, arrivals).lastCallTime == now
  {
    assert Sorted(arrivals) && Within(arrivals, s.lastCallTime, s.lastCallTime + Minute);
    SpreadInOpenWindow(s, arrivals);
    SpreadRunsFirst(s, arrivals);
  }

  /** In a saturated window, calls arriving before the minute is up only grow the
      queue, in arrival order, whatever is already waiting. */
  lemma {:induction false} SaturatedBurst<T>(s: GateState<T>, arrivals: seq<Arrival<T>>)
    requires s.calls >= CallsPerMinute && AllBefore(arrivals, s.lastCallTime + Minute)
    ensures Final(s, arrivals) == s.(queue := s.queue + Requests(arrivals))
    ensures Executed(s, arrivals) == []
    decreases |arrivals|
  {
    if arrivals == [] {
      assert s.queue + Requests(arrivals) == s.queue;
    } else {
      var a := arrivals[0];
      var rest := arrivals[1..];
      var s1 := s.(queue := s.queue + [a.request]);
      assert Reset(s, a.now) == s;
      assert Step(s, a.now, a.request, a.resolves) == (s1, Outcome(false, None));
      assert AllBefore(rest, s1.lastCallTime + Minute) by {
        forall i | 0 <= i < |rest| ensures rest[i] == arrivals[i + 1] { }
      }
      SaturatedBurst(s1, rest);
      var R := Requests(rest);
      assert Requests(arrivals) == [a.request] + R;
      assert (s.queue + [a.request]) + R == s.queue + ([a.request] + R);
      assert Final(s, arrivals) == Final(s1, rest);
      assert Executed(s, arrivals) == [] + Executed(s1, rest);
    }
  }

  /** Every call arrives before `t`. */
  predicate AllBefore<T>(arrivals: seq<Arrival<T>>, t: int) {
    forall i :: 0 <= i < |arrivals| ==> arrivals[i].now < t
  }

  /** A minute after the last admitted call, a burst of N calls at one instant from an
      empty queue runs exactly the first min(N, 5) and queues the rest in arrival order,
      however many calls had been counted before. */
  lemma {:induction false} BurstAfterIdleMinute<T>(s: GateState<T>, now: int, arrivals: seq<Arrival<T>>)
    requires now - s.lastCallTime >= Minute && s.queue == []
    requires AllAt(arrivals, now)
    ensures var k := Min(|arrivals|, CallsPerMinute);
      Executed(s, arrivals) == Requests(arrivals)[..k] && Final(s, arrivals).queue == Requests(arrivals)[k..]
  {
    var w := GateState(0, now, []);
    if arrivals != [] {
      assert Step(s, now, arrivals[0].request, arrivals[0].resolves) == Step(w, now, arrivals[0].request, arrivals[0].resolves);
      SameFirstStep(s, w, arrivals);
    }
    BurstInOpenWindow(w, now, arrivals);
  }

  /** Two states on which the first call acts alike behave alike on all the calls. */
  lemma SameFirstStep<T>(s: GateState<T>, s': GateState<T>, arrivals: seq<Arrival<T>>)
    requires arrivals != []
    requires Step(s, arrivals[0].now, arrivals[0].request, arrivals[0].resolves) == Step(s', arrivals[0].now, arrivals[0].request, arrivals[0].resolves)
    ensures Final(s, arrivals) == Final(s', arrivals) && Executed(s, arrivals) == Executed(s', arrivals)
  {
  }

  /** Ten calls at time 0, numbered from `first`, run the first five and leave the
      other five waiting. */
  lemma TenCallsAtOnce(first: int)
    ensures Final(Initial(), Burst(0, first, 10))
         == GateState(5, 0, [first + 5, first + 6, first + 7, first + 8, first + 9])
  {
    var b := Burst(0, first, 10);
    var s: GateState<int> := Initial();
    BurstInOpenWindow(s, 0, b);
    var f := Final(s, b);
    assert f.queue == Requests(b)[5..] == [first + 5, first + 6, first + 7, first + 8, first + 9];
    assert f == GateState(f.calls, f.lastCallTime, f.queue);
  }

  /** The queued request started after an admitted one is called directly and is
      never counted. With five requests waiting (as `TenCallsAtOnce` leaves them),
      five calls a minute later, one millisecond apart and each settling before the
      next, reach the provider nine times within five milliseconds, although the
      ceiling is five per minute. */
  lemma DrainBypassesCeiling()
    ensures Executed(GateState(5, 0, [5, 6, 7, 8, 9]), Staggered(60000, 1, 10, 5)) == [10, 5, 11, 6, 12, 7, 13, 8, 14]
  {
    var b := Staggered(60000, 1, 10, 5);
    assert b == [Arrival(60000, 10, true), Arrival(60001, 11, true), Arrival(60002, 12, true),
                 Arrival(60003, 13, true), Arrival(60004, 14, true)];
    var s4 := GateState(4, 60003, [9]);
    var s3 := GateState(3, 60002, [8, 9]);
    var s2 := GateState(2, 60001, [7, 8, 9]);
    var s1 := GateState(1, 60000, [6, 7, 8, 9]);
    var s0 := GateState(5, 0, [5, 6, 7, 8, 9]);
    RunOne(s4, b[4..], GateState(5, 60004, [9]), Outcome(true, None), []);
    RunOne(s3, b[3..], s4, Outcome(true, Some(8)), [14]);
    RunOne(s2, b[2..], s3, Outcome(true, Some(7)), [13, 8, 14]);
    RunOne(s1, b[1..], s2, Outcome(true, Some(6)), [12, 7, 13, 8, 14]);
    RunOne(s0, b, s1, Outcome(true, Some(5)), [11, 6, 12, 7, 13, 8, 14]);
  }

  /** Unfolds `Executed` once, given the first step and what the remaining calls reach. */
  lemma {:induction false} RunOne<T>(s: GateState<T>, arrivals: seq<Arrival<T>>, s1: GateState<T>, o: Outcome<T>, rest: seq<T>)
    requires arrivals != [] && Step(s, arrivals[0].now, arrivals[0].request, arrivals[0].resolves) == (s1, o)
    requires Executed(s1, arrivals[1..]) == rest
    ensures Executed(s, arrivals) == Started(arrivals[0].request, o) + rest
  {
  }

  /** The window runs from the last admitted call, not from the first: five fetches
      12 seconds apart from time 0 (one batch of five symbols) leave the window open
      at 48000, so a sixth call at 60000 is queued behind them. */
  lemma StaggeredBatchQueuesNextTick()
    ensures Queued(Initial(), Staggered(0, 12000, 0, 6)) == [5]
    ensures Executed(Initial(), Staggered(0, 12000, 0, 6)) == [0, 1, 2, 3, 4]
  {
    var b := Staggered(0, 12000, 0, 6);
    var s: GateState<int> := Initial();
    var s5: GateState<int> := GateState(5, 48000, []);
    var batch, tick := b[..5], b[5..];
    assert b == batch + tick;
    assert tick == [Arrival(60000, 5, true)];
    assert batch[4].now == 48000;
    assert Sorted(batch) && Within(batch, 0, Minute) by {
      forall i | 0 <= i < 5 ensures batch[i] == b[i] { }
    }
    OpenCalls(s, batch);
    assert Final(s, batch) == s5;
    assert Requests(batch) == [0, 1, 2, 3, 4];
    TickQueued();
    QueuedConcat(s, batch, tick);
    ExecutedConcat(s, batch, tick);
  }

  /** Five calls used, the last at 48000: a call at 60000 waits. */
  lemma TickQueued()
    ensures Queued(GateState(5, 48000, []), [Arrival(60000, 5, true)]) == [5]
    ensures Executed(GateState(5, 48000, []), [Arrival(60000, 5, true)]) == []
  {
    var s5: GateState<int> := GateState(5, 48000, []);
    var tick := [Arrival(60000, 5, true)];
    assert Reset(s5, 60000) == s5 && s5.queue + [5] == [5];
    assert Step(s5, 60000, 5, true) == (GateState(5, 48000, [5]), Outcome(false, None));
    assert tick[1..] == [];
  }

  /** Calls in time order within a minute of the last admitted call, from an empty
      queue with headroom for all of them, all run at once and in order. */
  lemma {:induction false} OpenCalls<T>(s: GateState<T>, arrivals: seq<Arrival<T>>)
    requires s.queue == [] && s.calls + |arrivals| <= CallsPerMinute
    requires Sorted(arrivals) && Within(arrivals, s.lastCallTime, s.lastCallTime + Minute)
    ensures Final(s, arrivals).queue == [] && Final(s, arrivals).calls == s.calls + |arrivals|
    ensures arrivals != [] ==> Final(s, arrivals).lastCallTime == arrivals[|arrivals| - 1].now
    ensures Queued(s, arrivals) == [] && Executed(s, arrivals) == Requests(arrivals)
    decreases |arrivals|
  {
    if arrivals != [] {
      var a := arrivals[0];
      var s1 := GateState(s.calls + 1, a.now, []);
      assert Reset(s, a.now) == s;
      assert Step(s, a.now, a.request, a.resolves) == (s1, Outcome(true, None));
      var rest := arrivals[1..];
      SortedSuffix(arrivals, s.lastCallTime, s.lastCallTime + Minute);
      assert Within(rest, s1.lastCallTime, s1.lastCallTime + Minute);
      OpenCalls(s1, rest);
      if rest != [] {
        assert rest[|rest| - 1] == arrivals[|arrivals| - 1];
      }
    }
  }

  /** Calls in time order within a minute of the last admitted call, with `c` calls
      used: exactly the first min(N, 5 - c) run, one unit of headroom each, and the
      rest wait in arrival order. The window start ends at the last of those that ran. */
  lemma SpreadInOpenWindow<T>(s: GateState<T>, arrivals: seq<Arrival<T>>)
    requires s.calls <= CallsPerMinute && Sorted(arrivals)
    requires Within(arrivals, s.lastCallTime, s.lastCallTime + Minute)
    ensures var k := Min(|arrivals|, CallsPerMinute - s.calls);
      Queued(s, arrivals) == Requests(arrivals)[k..] && Final(s, arrivals).calls == s.calls + k
    ensures var k := Min(|arrivals|, CallsPerMinute - s.calls);
      Final(s, arrivals).lastCallTime == if k == 0 then s.lastCallTime else arrivals[k - 1].now
  {
    SpreadQueued(s, arrivals);
    SpreadFinal(s, arrivals);
  }

  /** One call within a minute of the last admitted one: it runs exactly when there is
      headroom, and otherwise waits; from an empty queue nothing is drained. */
  lemma OpenStep<T>(s: GateState<T>, a: Arrival<T>)
    requires s.lastCallTime <= a.now < s.lastCallTime + Minute
    ensures var r := Step(s, a.now, a.request, a.resolves);
      && (s.calls < CallsPerMinute ==> r.1.ran && r.0.calls == s.calls + 1 && r.0.lastCallTime == a.now)
      && (s.calls < CallsPerMinute && s.queue == [] ==> r == (GateState(s.calls + 1, a.now, []), Outcome(true, None)))
      && (s.calls >= CallsPerMinute ==> r == (s.(queue := s.queue + [a.request]), Outcome(false, None)))
  {
    assert Reset(s, a.now) == s;
  }

  lemma {:induction false} SpreadQueued<T>(s: GateState<T>, arrivals: seq<Arrival<T>>)
    requires s.calls <= CallsPerMinute && Sorted(arrivals)
    requires Within(arrivals, s.lastCallTime, s.lastCallTime + Minute)
    ensures Queued(s, arrivals) == Requests(arrivals)[Min(|arrivals|, CallsPerMinute - s.calls)..]
    decreases |arrivals|
  {
    if arrivals != [] {
      var a, rest := arrivals[0], arrivals[1..];
      var r := Step(s, a.now, a.request, a.resolves);
      var k := Min(|arrivals|, CallsPerMinute - s.calls);
      SortedSuffix(arrivals, s.lastCallTime, s.lastCallTime + Minute);
      OpenStep(s, a);
      assert Requests(arrivals) == [a.request] + Requests(rest);
      assert Queued(s, arrivals) == (if r.1.ran then [] else [a.request]) + Queued(r.0, rest);
      assert Within(rest, r.0.lastCallTime, r.0.lastCallTime + Minute);
      SpreadQueued(r.0, rest);
      if s.calls < CallsPerMinute {
        assert Requests(arrivals)[k..] == Requests(rest)[k - 1..];
      }
    }
  }

  lemma {:induction false} SpreadFinal<T>(s: GateState<T>, arrivals: seq<Arrival<T>>)
    requires s.calls <= CallsPerMinute && Sorted(arrivals)
    requires Within(arrivals, s.lastCallTime, s.lastCallTime + Minute)
    ensures var k := Min(|arrivals|, CallsPerMinute - s.calls);
      && Final(s, arrivals).calls == s.calls + k
      && Final(s, arrivals).lastCallTime == if k == 0 then s.lastCallTime else arrivals[k - 1].now
    decreases |arrivals|
  {
    if arrivals != [] {
      var a, rest := arrivals[0], arrivals[1..];
      var r := Step(s, a.now, a.request, a.resolves);
      var k := Min(|arrivals|, CallsPerMinute - s.calls);
      SortedSuffix(arrivals, s.lastCallTime, s.lastCallTime + Minute);
      OpenStep(s, a);
      assert Final(s, arrivals) == Final(r.0, rest);
      assert Within(rest, r.0.lastCallTime, r.0.lastCallTime + Minute);
      SpreadFinal(r.0, rest);
      if k > 1 {
        assert rest[k - 2] == arrivals[k - 1];
      }
    }
  }

  /** The same calls from an empty queue: exactly the first min(N, 5 - c) reach the
      provider, and the rest are what waits afterwards. */
  lemma SpreadRunsFirst<T>(s: GateState<T>, arrivals: seq<Arrival<T>>)
    requires s.calls <= CallsPerMinute && s.queue == [] && Sorted(arrivals)
    requires Within(arrivals, s.lastCallTime, s.lastCallTime + Minute)
    ensures var k := Min(|arrivals|, CallsPerMinute - s.calls);
      Executed(s, arrivals) == Requests(arrivals)[..k] && Final(s, arrivals).queue == Requests(arrivals)[k..]
  {
    SpreadExecuted(s, arrivals);
    SpreadLeavesRest(s, arrivals);
  }

  lemma {:induction false} SpreadExecuted<T>(s: GateState<T>, arrivals: seq<Arrival<T>>)
    requires s.calls <= CallsPerMinute && s.queue == [] && Sorted(arrivals)
    requires Within(arrivals, s.lastCallTime, s.lastCallTime + Minute)
    ensures Executed(s, arrivals) == Requests(arrivals)[..Min(|arrivals|, CallsPerMinute - s.calls)]
    decreases |arrivals|
  {
    if arrivals != [] {
      var a, rest := arrivals[0], arrivals[1..];
      var r := Step(s, a.now, a.request, a.resolves);
      SortedSuffix(arrivals, s.lastCallTime, s.lastCallTime + Minute);
      OpenStep(s, a);
      if s.calls < CallsPerMinute {
        var k := Min(|arrivals|, CallsPerMinute - s.calls);
        assert Executed(s, arrivals) == [a.request] + Executed(r.0, rest);
        SpreadExecuted(r.0, rest);
        assert Requests(arrivals) == [a.request] + Requests(rest);
        assert Requests(arrivals)[..k] == [a.request] + Requests(rest)[..k - 1];
      } else {
        SaturatedBurst(s, arrivals);
      }
    }
  }

  lemma {:induction false} SpreadLeavesRest<T>(s: GateState<T>, arrivals: seq<Arrival<T>>)
    requires s.calls <= CallsPerMinute && s.queue == [] && Sorted(arrivals)
    requires Within(arrivals, s.lastCallTime, s.lastCallTime + Minute)
    ensures Final(s, arrivals).queue == Requests(arrivals)[Min(|arrivals|, CallsPerMinute - s.calls)..]
    decreases |arrivals|
  {
    if arrivals != [] {
      var a, rest := arrivals[0], arrivals[1..];
      var r := Step(s, a.now, a.request, a.resolves);
      SortedSuffix(arrivals, s.lastCallTime, s.lastCallTime + Minute);
      OpenStep(s, a);
      if s.calls < CallsPerMinute {
        var k := Min(|arrivals|, CallsPerMinute - s.calls);
        assert Final(s, arrivals) == Final(r.0, rest);
        SpreadLeavesRest(r.0, rest);
        assert Requests(arrivals) == [a.request] + Requests(rest);
        assert Requests(arrivals)[k..] == Requests(rest)[k - 1..];
      } else {
        SaturatedBurst(s, arrivals);
        assert s.queue + Requests(arrivals) == Requests(arrivals);
      }
    }
  }

  /** Running two sequences of calls one after the other: what is queued. */
  lemma {:induction false} QueuedConcat<T>(s: GateState<T>, a: seq<Arrival<T>>, b: seq<Arrival<T>>)
    ensures Queued(s, a + b) == Queued(s, a) + Queued(Final(s, a), b)
    decreases |a|
  {
    if a == [] {
      assert a + b == b;
    } else {
      var r := Step(s, a[0].now, a[0].request, a[0].resolves);
      assert (a + b)[0] == a[0] && (a + b)[1..] == a[1..] + b;
      QueuedConcat(r.0, a[1..], b);
      var e := if r.1.ran then [] else [a[0].request];
      assert Queued(s, a + b) == e + Queued(r.0, a[1..] + b);
      assert Queued(s, a) == e + Queued(r.0, a[1..]);
    }
  }

  /** Running two sequences of calls one after the other: what reaches the provider. */
  lemma {:induction false} ExecutedConcat<T>(s: GateState<T>, a: seq<Arrival<T>>, b: seq<Arrival<T>>)
    ensures Executed(s, a + b) == Executed(s, a) + Executed(Final(s, a), b)
    decreases |a|
  {
    if a == [] {
      assert a + b == b;
    } else {
      var r := Step(s, a[0].now, a[0].request, a[0].resolves);
      assert (a + b)[0] == a[0] && (a + b)[1..] == a[1..] + b;
      ExecutedConcat(r.0, a[1..], b);
      var e := Started(a[0].request, r.1);
      assert Executed(s, a + b) == e + Executed(r.0, a[1..] + b);
      assert Executed(s, a) == e + Executed(r.0, a[1..]);
    }
  }

  /** `n` calls, the i-th at `start + i * gap` asking for request `first + i`, each resolving. */
  function Staggered(start: int, gap: nat, first: int, n: nat): (b: seq<Arrival<int>>)
    ensures |b| == n && Sorted(b)
    ensures forall i :: 0 <= i < n ==> b[i] == Arrival(start + i * gap, first + i, true)
  {
    var b := seq(n, i requires 0 <= i < n => Arrival(start + i * gap, first + i, true));
    StaggeredSorted(start, gap, first, n, b);
    b
  }

  lemma StaggeredSorted(start: int, gap: nat, first: int, n: nat, b: seq<Arrival<int>>)
    requires |b| == n && forall i :: 0 <= i < n ==> b[i].now == start + i * gap
    ensures Sorted(b)
  {
    forall i, j | 0 <= i < j < n ensures b[i].now <= b[j].now {
      assert j * gap == i * gap + (j - i) * gap;
    }
  }

  /** The calls arrive in time order. */
  predicate Sorted<T>(arrivals: seq<Arrival<T>>) {
    forall i, j :: 0 <= i < j < |arrivals| ==> arrivals[i].now <= arrivals[j].now
  }

  /** Every call arrives within `[lo, hi)`. */
  predicate Within<T>(arrivals: seq<Arrival<T>>, lo: int, hi: int) {
    forall i :: 0 <= i < |arrivals| ==> lo <= arrivals[i].now < hi
  }

  lemma SortedSuffix<T>(arrivals: seq<Arrival<T>>, lo: int, hi: int)
    requires arrivals != [] && Sorted(arrivals) && Within(arrivals, lo, hi)
    ensures Sorted(arrivals[1..]) && Within(arrivals[1..], arrivals[0].now, hi)
  {
    forall i | 0 <= i < |arrivals| - 1 ensures arrivals[1..][i] == arrivals[i + 1] { }
  }

  /** `n` calls at time `now` asking for the requests `first`, `first + 1`, and so on. */
  function Burst(now: int, first: int, n: nat): (b: seq<Arrival<int>>)
    ensures |b| == n && AllAt(b, now)
    ensures forall i :: 0 <= i < n ==> b[i] == Arrival(now, first + i, true)
  {
    seq(n, i requires 0 <= i < n => Arrival(now, first + i, true))
  }

  /** The gate as evidently intended: a queued request started after an admitted one
      goes through the gate too, and is counted against the ceiling. */
  function StepCharged<T>(s: GateState<T>, now: int, request: T, resolves: bool): (r: (GateState<T>, Outcome<T>))
    ensures s.calls <= CallsPerMinute ==> r.0.calls <= CallsPerMinute
    ensures r.0.calls == Reset(s, now).calls + |Started(request, r.1)|
    ensures r.1.ran ==> r.0.lastCallTime == now
    ensures !r.1.ran ==> r.0.lastCallTime == s.lastCallTime && Reset(s, now).calls >= CallsPerMinute
  {
    var w := Reset(s, now);
    if w.calls >= CallsPerMinute then
      (w.(queue := w.queue + [request]), Outcome(false, None))
    else if resolves && w.queue != [] && w.calls + 1 < CallsPerMinute then
      (GateState(w.calls + 2, now, w.queue[1..]), Outcome(true, Some(w.queue[0])))
    else
      (GateState(w.calls + 1, now, w.queue), Outcome(true, None))
  }

  /** The final state and the number of provider calls made by a sequence of calls
      of the corrected gate. */
  function RunCharged<T>(s: GateState<T>, arrivals: seq<Arrival<T>>): (GateState<T>, nat)
    decreases |arrivals|
  {
    if arrivals == [] then (s, 0)
    else
      var r := StepCharged(s, arrivals[0].now, arrivals[0].request, arrivals[0].resolves);
      var t := RunCharged(r.0, arrivals[1..]);
      (t.0, |Started(arrivals[0].request, r.1)| + t.1)
  }

  /** The corrected gate never makes more than five provider calls in any minute:
      calls arriving in time order within one minute, from any state within the
      ceiling, reach the provider at most five times. */
  lemma {:induction false} ChargedWithinMinute<T>(s: GateState<T>, t: int, arrivals: seq<Arrival<T>>)
    requires s.calls <= CallsPerMinute && Sorted(arrivals) && Within(arrivals, t, t + Minute)
    ensures RunCharged(s, arrivals).1 <= CallsPerMinute
    decreases |arrivals|
  {
    if arrivals != [] {
      var a := arrivals[0];
      SortedSuffix(arrivals, t, t + Minute);
      var r := StepCharged(s, a.now, a.request, a.resolves);
      if r.1.ran {
        ChargedOpenWindow(r.0, arrivals[1..]);
      } else {
        assert Within(arrivals[1..], t, t + Minute);
        ChargedWithinMinute(r.0, t, arrivals[1..]);
      }
    }
  }

  /** While the window that opened at the last admitted call stays open, every
      provider call of the corrected gate uses up one unit of headroom. */
  lemma {:induction false} ChargedOpenWindow<T>(s: GateState<T>, arrivals: seq<Arrival<T>>)
    requires s.calls <= CallsPerMinute && Sorted(arrivals)
    requires Within(arrivals, s.lastCallTime, s.lastCallTime + Minute)
    ensures RunCharged(s, arrivals).1 + s.calls <= CallsPerMinute
    decreases |arrivals|
  {
    if arrivals != [] {
      var a := arrivals[0];
      SortedSuffix(arrivals, s.lastCallTime, s.lastCallTime + Minute);
      var r := StepCharged(s, a.now, a.request, a.resolves);
      assert Reset(s, a.now) == s;
      assert Within(arrivals[1..], r.0.lastCallTime, r.0.lastCallTime + Minute);
      ChargedOpenWindow(r.0, arrivals[1..]);
    }
  }

  /** On the calls that `DrainBypassesCeiling` exhibits, the corrected gate stays
      within the ceiling. */
  lemma ChargedDrainExample()
    ensures RunCharged(GateState(5, 0, [5, 6, 7, 8, 9]), Staggered(60000, 1, 10, 5)).1 <= CallsPerMinute
  {
    ChargedWithinMinute(GateState(5, 0, [5, 6, 7, 8, 9]), 60000, Staggered(60000, 1, 10, 5));
  }
}
