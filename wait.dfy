/** The bounded polling loop: call a probe up to a fixed number of times,
    return at once when it fails or reports done, and sleep after every
    other attempt.

    A probe is a Go closure; the model gives it as a function of the attempt
    number (0 for the first call). Whatever state the closure consults, one
    run of the loop sees one such function, so quantifying over all of them
    covers every probe. */
module Wait {
  import opened Errors

  /** One answer of the probe: Go's `(stop bool, err error)` pair. */
  datatype Poll = Poll(stop: bool, err: Outcome)

  /** The loop returns on this answer: the probe failed or reported done. */
  predicate Settles(p: Poll)
  {
    p.err.Fail? || p.stop
  }

  /** What the loop does, in order: one call of the probe, or one sleep of some seconds. */
  datatype Event = Probe | Sleep(seconds: nat)

  /** The error the loop returns and everything it did on the way. */
  datatype Waited = Waited(result: Outcome, trace: seq<Event>)

  /** The budget of `WaitFor`: 60 attempts, 3 seconds apart. */
  const WaitForAttempts := 60
  const WaitForInterval := 3

  function Max0(n: int): nat
  {
    if n < 0 then 0 else n
  }

  /** `n` attempts that neither failed nor stopped, each followed by its sleep. */
  function Idle(n: nat, interval: nat): seq<Event>
  {
    if n == 0 then [] else Idle(n - 1, interval) + [Probe, Sleep(interval)]
  }

  /** The number of probe calls in a trace. */
  function Calls(t: seq<Event>): nat
  {
    if t == [] then 0 else Calls(t[..|t| - 1]) + (if t[|t| - 1] == Probe then 1 else 0)
  }

  /** The number of sleeps in a trace. */
  function Sleeps(t: seq<Event>): nat
  {
    if t == [] then 0 else Sleeps(t[..|t| - 1]) + (if t[|t| - 1].Sleep? then 1 else 0)
  }

  /** The first attempt, from `i` on, at which the probe settles; or the
      budget (`i` itself if the budget is already spent) if it never does. */
  function FirstSettle(probe: nat -> Poll, maxAttempts: int, i: nat): (k: nat)
    ensures i <= k
    ensures k == i || k <= maxAttempts
    ensures k < maxAttempts ==> Settles(probe(k))
    decreases maxAttempts - i
  {
    if maxAttempts <= i || Settles(probe(i)) then i else FirstSettle(probe, maxAttempts, i + 1)
  }

  /** No attempt before the first settling one settles. */
  lemma {:induction false} FirstSettleIsFirst(probe: nat -> Poll, maxAttempts: int, i: nat)
    ensures forall j :: i <= j < FirstSettle(probe, maxAttempts, i) ==> !Settles(probe(j))
    decreases maxAttempts - i
  {
    if !(maxAttempts <= i || Settles(probe(i))) {
      FirstSettleIsFirst(probe, maxAttempts, i + 1);
    }
  }

  /** The error the loop returns and how many times it calls the probe. */
  datatype Tally = Tally(result: Outcome, attempts: nat)

  /** The loop's result in closed form, from attempt `i` on: the first
      settling attempt's error (nil when it stopped) after that many calls,
      or the retry error once the budget is spent. */
  function TallyFrom(probe: nat -> Poll, maxAttempts: int, i: nat): Tally
    decreases maxAttempts - i
  {
    if maxAttempts <= i then Tally(Fail(RetriesExceeded(maxAttempts)), i)
    else if Settles(probe(i)) then Tally(probe(i).err, i + 1)
    else TallyFrom(probe, maxAttempts, i + 1)
  }

  /** The loop's result and its number of probe calls, as a recursive
      function. This is a third statement of the loop, next to the method and
      `Run`, kept because proofs about the controller's waits unfold it far
      more cheaply than `Run`'s trace; `RunTally` proves it agrees with `Run`. */
  function Tallied(probe: nat -> Poll, maxAttempts: int): Tally
  {
    TallyFrom(probe, maxAttempts, 0)
  }

  /** What the loop does, in closed form: run up to the first settling
      attempt, or through the whole budget, sleeping after every attempt
      that did not settle. */
  function Run(probe: nat -> Poll, maxAttempts: int, interval: nat): Waited
  {
    var k := FirstSettle(probe, maxAttempts, 0);
    if k < maxAttempts then Waited(probe(k).err, Idle(k, interval) + [Probe])
    else Waited(Fail(RetriesExceeded(maxAttempts)), Idle(k, interval))
  }

  /** Wait for the probe to report done, failing fast on its error and
      giving up after `maxAttempts` calls. */
  method WaitForSpecificOrError(probe: nat -> Poll, maxAttempts: int, interval: nat)
    returns (err: Outcome, trace: seq<Event>)
    ensures Waited(err, trace) == Run(probe, maxAttempts, interval)
  {
    trace := [];
    var i := 0;
    FirstSettleIsFirst(probe, maxAttempts, 0);
    while i < maxAttempts
      invariant i == 0 || i <= maxAttempts
      invariant forall j :: 0 <= j < i ==> !Settles(probe(j))
      invariant trace == Idle(i, interval)
    {
      var p := probe(i);
      trace := trace + [Probe];
      if p.err.Fail? {
        return p.err, trace;
      }
      if p.stop {
        return Nil, trace;
      }
      trace := trace + [Sleep(interval)];
      i := i + 1;
    }
    err := Fail(RetriesExceeded(maxAttempts));
  }

  /** Adapts a boolean probe: it never reports an error. */
  function Lift(f: nat -> bool): nat -> Poll
  {
    (i: nat) => Poll(f(i), Nil)
  }

  /** Wait for a boolean probe to hold. */
  method WaitForSpecific(f: nat -> bool, maxAttempts: int, interval: nat)
    returns (err: Outcome, trace: seq<Event>)
    ensures Waited(err, trace) == Run(Lift(f), maxAttempts, interval)
    ensures err.Nil? <==> exists j :: 0 <= j < maxAttempts && f(j)
    ensures err.Fail? ==> err.error == RetriesExceeded(maxAttempts)
  {
    err, trace := WaitForSpecificOrError(Lift(f), maxAttempts, interval);
    BoolProbeOutcome(f, maxAttempts, interval);
  }

  /** Wait for a boolean probe with the default budget. */
  method WaitFor(f: nat -> bool) returns (err: Outcome, trace: seq<Event>)
    ensures Waited(err, trace) == Run(Lift(f), WaitForAttempts, WaitForInterval)
    ensures err.Nil? <==> exists j :: 0 <= j < WaitForAttempts && f(j)
    ensures err.Fail? ==> err.error == RetriesExceeded(WaitForAttempts)
  {
    err, trace := WaitForSpecific(f, WaitForAttempts, WaitForInterval);
  }

  // ----- counting -----

  lemma {:induction false} CallsAppend(s: seq<Event>, t: seq<Event>)
    ensures Calls(s + t) == Calls(s) + Calls(t)
    ensures Sleeps(s + t) == Sleeps(s) + Sleeps(t)
    decreases |t|
  {
    if t == [] {
      assert s + t == s;
    } else {
      var u := t[..|t| - 1];
      assert (s + t)[..|s + t| - 1] == s + u;
      assert t[..|t| - 1] == u;
      CallsAppend(s, u);
    }
  }

  lemma {:induction false} IdleCounts(n: nat, interval: nat)
    ensures Calls(Idle(n, interval)) == n && Sleeps(Idle(n, interval)) == n
  {
    if n > 0 {
      IdleCounts(n - 1, interval);
      CallsAppend(Idle(n - 1, interval), [Probe, Sleep(interval)]);
      assert [Probe, Sleep(interval)][..1] == [Probe];
      assert [Probe][..0] == [];
    }
  }

  /** The number of attempts among the first `n` that neither failed nor stopped. */
  function IdleAttempts(probe: nat -> Poll, n: nat): nat
  {
    if n == 0 then 0 else IdleAttempts(probe, n - 1) + (if Settles(probe(n - 1)) then 0 else 1)
  }

  lemma {:induction false} IdleAttemptsAll(probe: nat -> Poll, n: nat)
    requires forall j :: 0 <= j < n ==> !Settles(probe(j))
    ensures IdleAttempts(probe, n) == n
  {
    if n > 0 {
      IdleAttemptsAll(probe, n - 1);
    }
  }

  // ----- the properties of the loop -----

  /** If the first attempt that fails or stops is attempt `k` (counting
      from 1) within the budget, the probe is called exactly `k` times, the
      loop sleeps after each of the `k - 1` before it, and it returns that
      attempt's error: nil when it stopped, the probe's own error when it failed. */
  lemma SettlesOnAttempt(probe: nat -> Poll, maxAttempts: int, interval: nat, k: nat)
    requires 1 <= k <= maxAttempts
    requires forall j :: 0 <= j < k - 1 ==> !Settles(probe(j))
    requires Settles(probe(k - 1))
    ensures var w := Run(probe, maxAttempts, interval);
            && w.result == probe(k - 1).err
            && w.trace == Idle(k - 1, interval) + [Probe]
            && Calls(w.trace) == k && Sleeps(w.trace) == k - 1
  {
    var f := FirstSettle(probe, maxAttempts, 0);
    FirstSettleIsFirst(probe, maxAttempts, 0);
    assert f == k - 1;
    IdleCounts(k - 1, interval);
    CallsAppend(Idle(k - 1, interval), [Probe]);
    assert [Probe][..0] == [];
  }

  /** If no attempt within the budget fails or stops, the probe is called
      exactly `maxAttempts` times (never, when the budget is not positive),
      the loop sleeps after every call including the last one, and the
      retry error naming the budget comes back. */
  lemma ExhaustsBudget(probe: nat -> Poll, maxAttempts: int, interval: nat)
    requires forall j :: 0 <= j < maxAttempts ==> !Settles(probe(j))
    ensures var w := Run(probe, maxAttempts, interval);
            && w.result == Fail(RetriesExceeded(maxAttempts))
            && w.trace == Idle(Max0(maxAttempts), interval)
            && Calls(w.trace) == Max0(maxAttempts) && Sleeps(w.trace) == Max0(maxAttempts)
            && (maxAttempts <= 0 ==> w.trace == [])
            && (maxAttempts > 0 ==> w.trace[|w.trace| - 1] == Sleep(interval))
  {
    var f := FirstSettle(probe, maxAttempts, 0);
    assert f == Max0(maxAttempts);
    IdleCounts(f, interval);
  }

  /** Every sleep follows an attempt that neither failed nor stopped, and
      every such attempt is followed by a sleep. */
  lemma SleepsFollowIdleAttempts(probe: nat -> Poll, maxAttempts: int, interval: nat)
    ensures var w := Run(probe, maxAttempts, interval);
            Sleeps(w.trace) == IdleAttempts(probe, Calls(w.trace))
  {
    var k := FirstSettle(probe, maxAttempts, 0);
    var idle := Idle(k, interval);
    FirstSettleIsFirst(probe, maxAttempts, 0);
    IdleAttemptsAll(probe, k);
    IdleCounts(k, interval);
    if k < maxAttempts {
      CallsAppend(idle, [Probe]);
      assert [Probe][..0] == [];
      assert Sleeps(idle + [Probe]) == k && Calls(idle + [Probe]) == k + 1;
      assert IdleAttempts(probe, k + 1) == k;
    } else {
      assert Sleeps(idle) == k == Calls(idle);
    }
  }

  /** The tally counts from the first settling attempt. */
  lemma {:induction false} TallyFromFirstSettle(probe: nat -> Poll, maxAttempts: int, i: nat)
    ensures var k := FirstSettle(probe, maxAttempts, i);
            TallyFrom(probe, maxAttempts, i)
              == if k < maxAttempts then Tally(probe(k).err, k + 1) else Tally(Fail(RetriesExceeded(maxAttempts)), k)
    decreases maxAttempts - i
  {
    if !(maxAttempts <= i || Settles(probe(i))) {
      TallyFromFirstSettle(probe, maxAttempts, i + 1);
    }
  }

  /** The tally is the loop's result and the number of probe calls in its trace. */
  lemma RunTally(probe: nat -> Poll, maxAttempts: int, interval: nat)
    ensures var w := Run(probe, maxAttempts, interval);
            Tallied(probe, maxAttempts) == Tally(w.result, Calls(w.trace))
  {
    var k := FirstSettle(probe, maxAttempts, 0);
    TallyFromFirstSettle(probe, maxAttempts, 0);
    IdleCounts(k, interval);
    if k < maxAttempts {
      CallsAppend(Idle(k, interval), [Probe]);
      assert [Probe][..0] == [];
    }
  }

  /** With a boolean probe the loop never returns a probe error: nil exactly
      when the probe holds within the budget, the retry error otherwise. */
  lemma BoolProbeOutcome(f: nat -> bool, maxAttempts: int, interval: nat)
    ensures var w := Run(Lift(f), maxAttempts, interval);
            && (w.result.Nil? <==> exists j :: 0 <= j < maxAttempts && f(j))
            && (w.result.Fail? ==> w.result.error == RetriesExceeded(maxAttempts))
  {
    var k := FirstSettle(Lift(f), maxAttempts, 0);
    FirstSettleIsFirst(Lift(f), maxAttempts, 0);
    if k < maxAttempts {
      assert Lift(f)(k).stop;
    } else {
      forall j | 0 <= j < maxAttempts ensures !f(j) {
        assert !Settles(Lift(f)(j));
      }
    }
  }
}
