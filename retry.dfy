/** The retrying allocator decorator: every allocate and reallocate request goes
    to the wrapped allocator once; on a null answer a bounded slow path sleeps,
    bumps the shared retry counter and asks again, up to `maxRetries` times.
    Deallocate and allocate-zeroed are passed through untouched. */
module Retry {
  import opened Allocator

  /** The width of the source's `max_retries` field. */
  type u32 = x: int | 0 <= x < 0x1_0000_0000

  /** A time interval in nanoseconds. */
  type Duration = nat

  /** The interval of `ms` milliseconds. */
  function Millis(ms: nat): Duration {
    ms * 1_000_000
  }

  /** The retry policy: the pause before each retry and the number of retries. */
  datatype RetryConfig = RetryConfig(timeToWait: Duration, maxRetries: u32)

  /** The explicit constructor; it validates nothing, so a zero pause or a zero
      retry budget is accepted as given. */
  function NewV1(timeToWait: Duration, maxRetries: u32): (c: RetryConfig)
    ensures c.timeToWait == timeToWait && c.maxRetries == maxRetries
  {
    RetryConfig(timeToWait, maxRetries)
  }

  /** The policy fixed by `RetryAlloc.New`: 50 ms between tries, 10 retries. */
  const DefaultConfig: RetryConfig := RetryConfig(Millis(50), 10)

  // ---------------------------------------------------------------------------
  // What one request yields, as a function of the wrapped allocator's script
  // ---------------------------------------------------------------------------

  /** The answer handed back to the caller and how many retries it took. */
  datatype Outcome = Outcome(result: Ptr, retries: nat)

  /** The slow path against the script `s` with `budget` retries left: each
      retry asks once, and the first non-null answer ends the loop. */
  function Slow(s: seq<Ptr>, budget: nat): (o: Outcome)
    ensures o.retries <= budget
    ensures o.result == Null ==> o.retries == budget
    ensures o.result != Null ==> 1 <= o.retries
    decreases budget
  {
    if budget == 0 then Outcome(Null, 0)
    else if At(s, 0) != Null then Outcome(At(s, 0), 1)
    else
      var rest := Slow(Drop(s, 1), budget - 1);
      Outcome(rest.result, rest.retries + 1)
  }

  /** A whole allocate or reallocate request: one unretried attempt, then the
      slow path on a null answer. */
  function Attempt(s: seq<Ptr>, maxRetries: nat): (o: Outcome)
    ensures o.retries <= maxRetries
    ensures o.result == Null ==> o.retries == maxRetries
    ensures maxRetries == 0 ==> o == Outcome(At(s, 0), 0)
  {
    if At(s, 0) != Null then Outcome(At(s, 0), 0) else Slow(Drop(s, 1), maxRetries)
  }

  /** The slow path returns the first non-null answer, after exactly as many
      retries as it took to reach it; when it fails, every answer was null. */
  lemma {:induction false} SlowIsFirstSuccess(s: seq<Ptr>, budget: nat)
    ensures var o := Slow(s, budget);
      && (o.result != Null ==>
            o.result == At(s, o.retries - 1) &&
            forall i: nat :: i < o.retries - 1 ==> At(s, i) == Null)
      && (o.result == Null ==> forall i: nat :: i < budget ==> At(s, i) == Null)
    decreases budget
  {
    if budget > 0 && At(s, 0) == Null {
      var t := Drop(s, 1);
      SlowIsFirstSuccess(t, budget - 1);
      var o := Slow(s, budget);
      if o.result != Null {
        assert o.result == At(t, o.retries - 2);
        forall i: nat | i < o.retries - 1 ensures At(s, i) == Null {
          if i > 0 { assert At(s, i) == At(t, i - 1); }
        }
      } else {
        forall i: nat | i < budget ensures At(s, i) == Null {
          if i > 0 { assert At(s, i) == At(t, i - 1); }
        }
      }
    }
  }

  /** Fast path and eventual success: when the first `k` answers are null and
      answer `k` is not, with `k` within the budget, the request returns that
      answer after exactly `k` retries (none at all when `k` is 0). */
  lemma FirstSuccess(s: seq<Ptr>, maxRetries: nat, k: nat)
    requires k <= maxRetries
    requires forall i: nat :: i < k ==> At(s, i) == Null
    requires At(s, k) != Null
    ensures Attempt(s, maxRetries) == Outcome(At(s, k), k)
  {
    if k > 0 {
      var t := Drop(s, 1);
      SlowIsFirstSuccess(t, maxRetries);
      var o := Slow(t, maxRetries);
      assert At(t, k - 1) == At(s, k);
      forall i: nat | i < k - 1 ensures At(t, i) == Null {
        assert At(t, i) == At(s, i + 1);
      }
      assert o.result != Null;
      assert At(t, o.retries - 1) == At(s, o.retries);
    }
  }

  /** Bounded exhaustion: when every answer within the budget is null, the
      request returns null after exactly `maxRetries` retries. */
  lemma Exhaustion(s: seq<Ptr>, maxRetries: nat)
    requires forall i: nat :: i <= maxRetries ==> At(s, i) == Null
    ensures Attempt(s, maxRetries) == Outcome(Null, maxRetries)
  {
    var t := Drop(s, 1);
    SlowIsFirstSuccess(t, maxRetries);
  }

  /** A request succeeds exactly when one of its first `1 + maxRetries`
      answers is non-null. */
  lemma SucceedsIff(s: seq<Ptr>, maxRetries: nat)
    ensures Attempt(s, maxRetries).result != Null <==>
            exists i: nat :: i <= maxRetries && At(s, i) != Null
  {
    var t := Drop(s, 1);
    SlowIsFirstSuccess(t, maxRetries);
    if At(s, 0) == Null {
      var o := Slow(t, maxRetries);
      if o.result != Null {
        assert At(t, o.retries - 1) == At(s, o.retries);
      }
      if exists i: nat :: i <= maxRetries && At(s, i) != Null {
        var i: nat :| i <= maxRetries && At(s, i) != Null;
        assert At(t, i - 1) == At(s, i);
      }
    }
  }

  // ---------------------------------------------------------------------------
  // The order of events within one request
  // ---------------------------------------------------------------------------

  /** One observable action of the decorator. */
  datatype Step = Slept(d: Duration) | Bumped | Forwarded(call: Call)

  /** One slow-path iteration: sleep, bump the counter, then ask again. */
  function Round(d: Duration, c: Call): seq<Step> {
    [Slept(d), Bumped, Forwarded(c)]
  }

  /** What an allocate or reallocate request does when it takes `retries` retries. */
  function RetryTrace(d: Duration, c: Call, retries: nat): seq<Step> {
    [Forwarded(c)] + Copies(Round(d, c), retries)
  }

  /** The time spent sleeping over a sequence of steps. */
  function TotalSleep(t: seq<Step>): nat {
    if t == [] then 0 else (if t[0].Slept? then t[0].d else 0) + TotalSleep(t[1..])
  }

  lemma {:induction false} TotalSleepAppend(a: seq<Step>, b: seq<Step>)
    ensures TotalSleep(a + b) == TotalSleep(a) + TotalSleep(b)
  {
    if a == [] {
      assert a + b == b;
    } else {
      assert (a + b)[1..] == a[1..] + b;
      TotalSleepAppend(a[1..], b);
    }
  }

  lemma {:induction false} TotalSleepCopies(block: seq<Step>, n: nat)
    ensures TotalSleep(Copies(block, n)) == n * TotalSleep(block)
  {
    if n > 0 {
      TotalSleepCopies(block, n - 1);
      TotalSleepAppend(block, Copies(block, n - 1));
      var k := TotalSleep(block);
      assert k + (n - 1) * k == n * k by {
        assert (n - 1) * k == n * k - k;
      }
    }
  }

  /** Within a request that took `k` retries there are exactly `k` sleeps and
      `k` counter bumps, one more forwarded call than either, and `k` pauses of
      `d` in total. */
  lemma RetryTraceCounts(d: Duration, c: Call, k: nat)
    ensures var t := RetryTrace(d, c, k);
      && multiset(t)[Slept(d)] == k
      && multiset(t)[Bumped] == k
      && multiset(t)[Forwarded(c)] == k + 1
      && TotalSleep(t) == k * d
  {
    var r := Round(d, c);
    var t := RetryTrace(d, c, k);
    assert multiset(r)[Slept(d)] == 1;
    assert multiset(r)[Bumped] == 1;
    assert multiset(r)[Forwarded(c)] == 1;
    CopiesOccurrences(r, k, Slept(d));
    CopiesOccurrences(r, k, Bumped);
    CopiesOccurrences(r, k, Forwarded(c));
    assert multiset(t) == multiset([Forwarded(c)]) + multiset(Copies(r, k));
    assert TotalSleep(r[2..]) == 0 by {
      assert r[2..][1..] == [];
    }
    assert TotalSleep(r[1..]) == 0 by {
      assert r[1..][1..] == r[2..];
    }
    TotalSleepCopies(r, k);
    TotalSleepAppend([Forwarded(c)], Copies(r, k));
  }

  // ---------------------------------------------------------------------------
  // The decorator
  // ---------------------------------------------------------------------------

  /** The retrying allocator. `config` is fixed at construction; the counter
      `numberOfRetries` is the only state the decorator itself updates, and
      `trace` records, for the proofs, every step it takes. */
  class RetryAlloc {
    const inner: ScriptedAlloc
    const config: RetryConfig
    var numberOfRetries: nat
    ghost var trace: seq<Step>

    constructor WithConfig(alloc: ScriptedAlloc, config: RetryConfig)
      ensures inner == alloc && this.config == config
      ensures numberOfRetries == 0 && trace == []
    {
      inner := alloc;
      this.config := config;
      numberOfRetries := 0;
      trace := [];
    }

    constructor New(alloc: ScriptedAlloc)
      ensures inner == alloc && config == DefaultConfig
      ensures numberOfRetries == 0 && trace == []
    {
      inner := alloc;
      config := DefaultConfig;
      numberOfRetries := 0;
      trace := [];
    }

    method NumberOfRetries() returns (n: nat)
      ensures n == numberOfRetries
    {
      n := numberOfRetries;
    }

    /** The pause before a retry, kept only as a step of the trace. */
    ghost method Sleep(d: Duration)
      modifies this`trace
      ensures trace == old(trace) + [Slept(d)]
    {
      trace := trace + [Slept(d)];
    }

    method AllocSlow(layout: Layout) returns (r: Ptr)
      modifies this, inner
      ensures var o := Slow(old(inner.script), config.maxRetries);
        && r == o.result
        && numberOfRetries == old(numberOfRetries) + o.retries
        && inner.script == Drop(old(inner.script), o.retries)
        && inner.log == old(inner.log) + Copies([AllocCall(layout)], o.retries)
        && trace == old(trace) + Copies(Round(config.timeToWait, AllocCall(layout)), o.retries)
    {
      ghost var s0 := inner.script;
      ghost var m: nat := config.maxRetries;
      ghost var round := Round(config.timeToWait, AllocCall(layout));
      var i: nat := 0;
      while i < config.maxRetries
        invariant i <= m
        invariant inner.script == Drop(s0, i)
        invariant numberOfRetries == old(numberOfRetries) + i
        invariant inner.log == old(inner.log) + Copies([AllocCall(layout)], i)
        invariant trace == old(trace) + Copies(round, i)
        invariant Slow(s0, m).result == Slow(Drop(s0, i), m - i).result
        invariant Slow(s0, m).retries == i + Slow(Drop(s0, i), m - i).retries
      {
        ghost var cur := inner.script;
        Sleep(config.timeToWait);
        numberOfRetries := numberOfRetries + 1;
        trace := trace + [Bumped];
        var p := inner.Alloc(layout);
        trace := trace + [Forwarded(AllocCall(layout))];
        DropDrop(s0, i, 1);
        CopiesSnoc([AllocCall(layout)], i);
        CopiesSnoc(round, i);
        assert trace == old(trace) + (Copies(round, i) + round);
        i := i + 1;
        if p != Null {
          assert Slow(cur, m - (i - 1)) == Outcome(p, 1);
          return p;
        }
      }
      r := Null;
    }

    method ReallocSlow(ptr: Ptr, layout: Layout, newSize: nat) returns (r: Ptr)
      modifies this, inner
      ensures var o := Slow(old(inner.script), config.maxRetries);
        && r == o.result
        && numberOfRetries == old(numberOfRetries) + o.retries
        && inner.script == Drop(old(inner.script), o.retries)
        && inner.log == old(inner.log) + Copies([ReallocCall(ptr, layout, newSize)], o.retries)
        && trace == old(trace) + Copies(Round(config.timeToWait, ReallocCall(ptr, layout, newSize)), o.retries)
    {
      ghost var s0 := inner.script;
      ghost var m: nat := config.maxRetries;
      ghost var call := ReallocCall(ptr, layout, newSize);
      ghost var round := Round(config.timeToWait, call);
      var i: nat := 0;
      while i < config.maxRetries
        invariant i <= m
        invariant inner.script == Drop(s0, i)
        invariant numberOfRetries == old(numberOfRetries) + i
        invariant inner.log == old(inner.log) + Copies([call], i)
        invariant trace == old(trace) + Copies(round, i)
        invariant Slow(s0, m).result == Slow(Drop(s0, i), m - i).result
        invariant Slow(s0, m).retries == i + Slow(Drop(s0, i), m - i).retries
      {
        ghost var cur := inner.script;
        Sleep(config.timeToWait);
        numberOfRetries := numberOfRetries + 1;
        trace := trace + [Bumped];
        var p := inner.Realloc(ptr, layout, newSize);
        trace := trace + [Forwarded(call)];
        DropDrop(s0, i, 1);
        CopiesSnoc([call], i);
        CopiesSnoc(round, i);
        assert trace == old(trace) + (Copies(round, i) + round);
        i := i + 1;
        if p != Null {
          assert Slow(cur, m - (i - 1)) == Outcome(p, 1);
          return p;
        }
      }
      r := Null;
    }

    method Alloc(layout: Layout) returns (r: Ptr)
      modifies this, inner
      ensures var o := Attempt(old(inner.script), config.maxRetries);
        && r == o.result
        && numberOfRetries == old(numberOfRetries) + o.retries
        && inner.script == Drop(old(inner.script), 1 + o.retries)
        && inner.log == old(inner.log) + Copies([AllocCall(layout)], 1 + o.retries)
        && trace == old(trace) + RetryTrace(config.timeToWait, AllocCall(layout), o.retries)
    {
      ghost var s0 := inner.script;
      var p := inner.Alloc(layout);
      trace := trace + [Forwarded(AllocCall(layout))];
      if p == Null {
        r := AllocSlow(layout);
        ghost var o := Slow(Drop(s0, 1), config.maxRetries);
        DropDrop(s0, 1, o.retries);
      } else {
        r := p;
        assert Copies([AllocCall(layout)], 1) == [AllocCall(layout)] + [];
      }
    }

    method Dealloc(ptr: Ptr, layout: Layout)
      modifies this, inner
      ensures numberOfRetries == old(numberOfRetries)
      ensures inner.script == old(inner.script)
      ensures inner.log == old(inner.log) + [DeallocCall(ptr, layout)]
      ensures trace == old(trace) + [Forwarded(DeallocCall(ptr, layout))]
    {
      inner.Dealloc(ptr, layout);
      trace := trace + [Forwarded(DeallocCall(ptr, layout))];
    }

    method AllocZeroed(layout: Layout) returns (r: Ptr)
      modifies this, inner
      ensures r == At(old(inner.script), 0)
      ensures numberOfRetries == old(numberOfRetries)
      ensures inner.script == Drop(old(inner.script), 1)
      ensures inner.log == old(inner.log) + [AllocZeroedCall(layout)]
      ensures trace == old(trace) + [Forwarded(AllocZeroedCall(layout))]
    {
      r := inner.AllocZeroed(layout);
      trace := trace + [Forwarded(AllocZeroedCall(layout))];
    }

    method Realloc(ptr: Ptr, layout: Layout, newSize: nat) returns (r: Ptr)
      modifies this, inner
      ensures var o := Attempt(old(inner.script), config.maxRetries);
        && r == o.result
        && numberOfRetries == old(numberOfRetries) + o.retries
        && inner.script == Drop(old(inner.script), 1 + o.retries)
        && inner.log == old(inner.log) + Copies([ReallocCall(ptr, layout, newSize)], 1 + o.retries)
        && trace == old(trace) + RetryTrace(config.timeToWait, ReallocCall(ptr, layout, newSize), o.retries)
    {
      ghost var s0 := inner.script;
      var p := inner.Realloc(ptr, layout, newSize);
      trace := trace + [Forwarded(ReallocCall(ptr, layout, newSize))];
      if p == Null {
        r := ReallocSlow(ptr, layout, newSize);
        ghost var o := Slow(Drop(s0, 1), config.maxRetries);
        DropDrop(s0, 1, o.retries);
      } else {
        r := p;
        assert Copies([ReallocCall(ptr, layout, newSize)], 1) == [ReallocCall(ptr, layout, newSize)] + [];
      }
    }
  }

  // ---------------------------------------------------------------------------
  // Clients
  // ---------------------------------------------------------------------------

  /** A request the wrapped allocator cannot satisfy on any of its tries,
      routed through the default policy: it fails, and the counter shows that
      the slow path ran. */
  method DefaultGivesUp(answers: seq<Ptr>, layout: Layout) returns (p: Ptr, retries: nat)
    requires forall i: nat :: i <= 10 ==> At(answers, i) == Null
    ensures p == Null && retries == 10 && retries > 0
  {
    var system := new ScriptedAlloc(answers);
    var a := new RetryAlloc.New(system);
    Exhaustion(answers, 10);
    assert a.config.maxRetries == 10;
    p := a.Alloc(layout);
    retries := a.NumberOfRetries();
  }

  /** Two failures, then success, under a 10 ms / 3 retry policy: the answer
      comes back after two retries and 20 ms of sleeping. */
  method TwoFailuresThenSuccess(q: Ptr, layout: Layout) returns (p: Ptr, retries: nat, ghost slept: Duration)
    requires q != Null
    ensures p == q && retries == 2 && slept == Millis(20)
  {
    var stub := new ScriptedAlloc([Null, Null, q]);
    var a := new RetryAlloc.WithConfig(stub, NewV1(Millis(10), 3));
    FirstSuccess([Null, Null, q], 3, 2);
    p := a.Alloc(layout);
    retries := a.NumberOfRetries();
    RetryTraceCounts(Millis(10), AllocCall(layout), 2);
    assert a.trace == RetryTrace(Millis(10), AllocCall(layout), 2);
    slept := TotalSleep(a.trace);
  }

  /** Every call a realloc request sends to the wrapped allocator, the first
      one and each retry, carries the original pointer, layout and new size. */
  method ReallocKeepsArguments(a: RetryAlloc, ptr: Ptr, layout: Layout, newSize: nat) returns (r: Ptr)
    modifies a, a.inner
    ensures |a.inner.log| > |old(a.inner.log)|
    ensures forall i :: |old(a.inner.log)| <= i < |a.inner.log| ==>
              a.inner.log[i] == ReallocCall(ptr, layout, newSize)
  {
    ghost var log0 := a.inner.log;
    ghost var o := Attempt(a.inner.script, a.config.maxRetries);
    r := a.Realloc(ptr, layout, newSize);
    AppendedCopiesOfOne(log0, ReallocCall(ptr, layout, newSize), 1 + o.retries);
  }

  /** With no retries allowed, a failed request returns null at once: no
      sleep, no counter change, one call to the wrapped allocator. */
  method NoRetries(layout: Layout) returns (p: Ptr, retries: nat, ghost steps: seq<Step>)
    ensures p == Null && retries == 0 && steps == [Forwarded(AllocCall(layout))]
  {
    var stub := new ScriptedAlloc([]);
    var a := new RetryAlloc.WithConfig(stub, NewV1(Millis(1), 0));
    p := a.Alloc(layout);
    retries := a.NumberOfRetries();
    steps := a.trace;
  }
}
