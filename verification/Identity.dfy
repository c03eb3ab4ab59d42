/**
  * Rewriting an adapter's address: write, reset, wait for the adapter to come back,
  * read the address again. The adapter may fail at any point, in any way.
  */
module Identity {
  import opened Bytes

  const CSR: u16 := 10

  // Durations in nanoseconds; deadlines saturate at the longest duration there is.
  const MILLISECOND: nat := 1_000_000
  const FOREVER: nat := 0xFFFF_FFFF_FFFF_FFFF * 1_000_000_000 + 999_999_999

  datatype Options = Options(timeout: nat, interval: nat)

  // What the vendor command gets back: nothing, something unreadable, or a status.
  datatype Vendor = NoResponse | Unreadable | Status(code: nat)

  // What an opened adapter does when asked; None is an error.
  datatype Device = Device(company: Option<u16>, address: Option<seq<byte>>, vendor: Vendor, resets: bool, closes: bool)

  // The outcome of each attempt to open the adapter, and the time that passes besides sleeping.
  datatype World = World(open: nat -> Option<Device>, drift: nat -> nat)

  datatype Kind = UnsupportedController | FailedBeforeWrite | RecoveryRequired

  datatype Stage = Open | Initialize | ReadCurrent | Write | Close | Reenumeration | Readback

  datatype Preparation = AlreadyActive | Rewritten

  datatype Failed = Failed(kind: Kind, stage: Stage)

  // What was done to the adapter, by the number of the attempt that opened it.
  datatype Step = Opened(n: nat) | OpenFailed(n: nat) | Wrote(n: nat) | WasReset(n: nat) | WasClosed(n: nat)
      | Slept(time: nat)

  datatype Outcome = Outcome(result: Result<Preparation, Failed>, log: seq<Step>)

  function Interval(o: Options): nat { Max(o.interval, MILLISECOND) }

  // The clock reads at least the time slept since the deadline was set.
  function Now(w: World, o: Options, sleeps: nat): nat { sleeps * Interval(o) + w.drift(sleeps) }

  function Deadline(w: World, o: Options): nat { Min(w.drift(0) + o.timeout, FOREVER) }

  // Attempts `n`, `n + 1`, … to open the adapter again, and what was done; None when the deadline passed.
  function Reopen(w: World, o: Options, n: nat): (Option<nat>, seq<Step>)
    requires n > 0
    decreases Deadline(w, o) - n * Interval(o)
  {
    var slept := Slept(Interval(o));
    if w.open(n).Some? then (Some(n), [slept, Opened(n)])
    else if Now(w, o, n) < Deadline(w, o) then
      LaterIsCloser(w, o, n);
      var (found, more) := Reopen(w, o, n + 1);
      (found, [slept, OpenFailed(n)] + more)
    else (None, [slept, OpenFailed(n)])
  }

  lemma LaterIsCloser(w: World, o: Options, n: nat)
    requires Now(w, o, n) < Deadline(w, o)
    ensures n * Interval(o) < Deadline(w, o) && (n + 1) * Interval(o) == n * Interval(o) + Interval(o)
            && Interval(o) > 0
  {
  }

  function Recovery(stage: Stage, log: seq<Step>): Outcome { Outcome(Failure(Failed(RecoveryRequired, stage)), log) }

  // The reopened adapter must be the same kind and have the new address.
  function ReadBack(d: Device, n: nat, target: seq<byte>, log: seq<Step>): Outcome {
    var done := log + [WasClosed(n)];
    if d.company.None? then Recovery(Readback, done)
    else if d.company.value != CSR then Recovery(Readback, done)
    else if d.address.None? then Recovery(Readback, done)
    else if !d.closes then Recovery(Stage.Close, done)
    else if d.address.value != target then Recovery(Readback, done)
    else Outcome(Success(Rewritten), done)
  }

  function Before(kind: Kind, stage: Stage): Outcome {
    Outcome(Failure(Failed(kind, stage)), [Opened(0), WasClosed(0)])
  }

  function Prepare(w: World, target: seq<byte>, o: Options): Outcome {
    if w.open(0).None? then Outcome(Failure(Failed(FailedBeforeWrite, Stage.Open)), [OpenFailed(0)])
    else
      var d := w.open(0).value;
      if d.company.None? then Before(FailedBeforeWrite, Initialize)
      else if d.company.value != CSR then Before(UnsupportedController, Initialize)
      else if d.address.None? then Before(FailedBeforeWrite, ReadCurrent)
      else if d.address.value == target then
        if d.closes then Outcome(Success(AlreadyActive), [Opened(0), WasClosed(0)])
        else Before(FailedBeforeWrite, Stage.Close)
      else if d.vendor != Status(0) then Recovery(Write, [Opened(0), Wrote(0), WasClosed(0)])
      else
        var (found, more) := Reopen(w, o, 1);
        var log := [Opened(0), Wrote(0), WasReset(0), WasClosed(0)] + more;
        if found.None? then Recovery(Reenumeration, log)
        else if w.open(found.value).None? then Recovery(Reenumeration, log)
        else ReadBack(w.open(found.value).value, found.value, target, log)
  }

  // ---------------------------------------------------------------------------
  // Properties
  // ---------------------------------------------------------------------------

  function Count(log: seq<Step>, step: Step): nat {
    if log == [] then 0 else (if log[0] == step then 1 else 0) + Count(log[1..], step)
  }

  lemma {:induction false} CountAppend(a: seq<Step>, b: seq<Step>, step: Step)
    ensures Count(a + b, step) == Count(a, step) + Count(b, step)
  {
    if a == [] {
      assert a + b == b;
    } else {
      assert (a + b)[0] == a[0] && (a + b)[1..] == a[1..] + b;
      CountAppend(a[1..], b, step);
    }
  }

  lemma CountOne(a: Step, step: Step)
    ensures Count([a], step) == if a == step then 1 else 0
  {
    assert [a][1..] == [];
  }

  lemma CountTwo(a: Step, b: Step, step: Step)
    ensures Count([a, b], step) == (if a == step then 1 else 0) + (if b == step then 1 else 0)
  {
    assert [a, b] == [a] + [b];
    CountAppend([a], [b], step);
    CountOne(a, step);
    CountOne(b, step);
  }

  /** Reopening opens at most one adapter, and neither writes to one nor closes one. */
  lemma {:induction false} ReopenSteps(w: World, o: Options, n: nat, m: nat)
    requires n > 0
    ensures var (found, log) := Reopen(w, o, n);
            && (found.Some? ==> found.value >= n && w.open(found.value).Some?)
            && Count(log, Opened(m)) == (if found == Some(m) then 1 else 0)
            && Count(log, Wrote(m)) == Count(log, WasClosed(m)) == 0
    decreases Deadline(w, o) - n * Interval(o)
  {
    var slept := Slept(Interval(o));
    CountTwo(slept, Opened(n), Opened(m));
    CountTwo(slept, Opened(n), Wrote(m));
    CountTwo(slept, Opened(n), WasClosed(m));
    CountTwo(slept, OpenFailed(n), Opened(m));
    CountTwo(slept, OpenFailed(n), Wrote(m));
    CountTwo(slept, OpenFailed(n), WasClosed(m));
    if w.open(n).None? && Now(w, o, n) < Deadline(w, o) {
      LaterIsCloser(w, o, n);
      ReopenSteps(w, o, n + 1, m);
      var more := Reopen(w, o, n + 1).1;
      CountAppend([slept, OpenFailed(n)], more, Opened(m));
      CountAppend([slept, OpenFailed(n)], more, Wrote(m));
      CountAppend([slept, OpenFailed(n)], more, WasClosed(m));
    }
  }

  lemma {:induction false} LastAttempt(w: World, o: Options, n: nat)
    requires n > 0
    ensures var log := Reopen(w, o, n).1;
            && |log| >= 2 && |log| % 2 == 0
            && (|log| > 2 ==> Now(w, o, n + |log| / 2 - 2) < Deadline(w, o))
    decreases Deadline(w, o) - n * Interval(o)
  {
    if w.open(n).None? && Now(w, o, n) < Deadline(w, o) {
      LaterIsCloser(w, o, n);
      LastAttempt(w, o, n + 1);
    }
  }

  lemma Quotient(q: nat, d: nat, x: nat)
    requires d > 0 && q * d <= x
    ensures q <= x / d
  {
    var k := x / d;
    assert x < (k + 1) * d;
    if q >= k + 1 { Product(d, k + 1, q); }
  }

  // At least one attempt, and one for every started interval of the timeout.
  function AttemptLimit(timeout: nat, interval: nat): nat
    requires interval > 0
  {
    if timeout == 0 then 1 else (timeout - 1) / interval + 1
  }

  /**
    * On a clock that the sleeps advance, there are at most max(1, ceil(timeout / interval)) attempts to open the
    * adapter again.
    */
  lemma AttemptsAreBounded(w: World, o: Options)
    requires forall k: nat :: w.drift(k) >= w.drift(0)
    ensures var attempts := |Reopen(w, o, 1).1| / 2;
            1 <= attempts <= AttemptLimit(o.timeout, Interval(o))
    ensures o.interval > 0 ==> |Reopen(w, o, 1).1| / 2 <= AttemptLimit(o.timeout, o.interval)
  {
    hide Reopen;
    LastAttempt(w, o, 1);
    var attempts, d := |Reopen(w, o, 1).1| / 2, Interval(o);
    if attempts > 1 {
      UnderTimeout(w, o, attempts - 1);
      Quotient(attempts - 1, d, o.timeout - 1);
      if o.interval > 0 {
        Product(attempts - 1, o.interval, d);
        Quotient(attempts - 1, o.interval, o.timeout - 1);
      }
    }
  }

  lemma UnderTimeout(w: World, o: Options, sleeps: nat)
    requires w.drift(sleeps) >= w.drift(0) && Now(w, o, sleeps) < Deadline(w, o)
    ensures sleeps * Interval(o) < o.timeout
  {
  }

  lemma Product(n: nat, a: nat, b: nat)
    requires a <= b
    ensures n * a <= n * b
  {
  }

  lemma FirstSteps(m: nat)
    ensures Count([Opened(0), WasClosed(0)], Opened(m)) == Count([Opened(0), WasClosed(0)], WasClosed(m)) ==
            if m == 0 then 1 else 0
    ensures Count([Opened(0), WasClosed(0)], Wrote(m)) == 0
    ensures Count([OpenFailed(0)], Opened(m)) == Count([OpenFailed(0)], WasClosed(m))
            == Count([OpenFailed(0)], Wrote(m)) == 0
  {
    CountTwo(Opened(0), WasClosed(0), Opened(m));
    CountTwo(Opened(0), WasClosed(0), WasClosed(m));
    CountTwo(Opened(0), WasClosed(0), Wrote(m));
    CountOne(OpenFailed(0), Opened(m));
    CountOne(OpenFailed(0), WasClosed(m));
    CountOne(OpenFailed(0), Wrote(m));
  }

  lemma WriteSteps(m: nat, step: Step)
    requires step in {Opened(m), WasClosed(m), Wrote(m)}
    ensures Count([Opened(0), Wrote(0), WasClosed(0)], step)
            == Count([Opened(0), Wrote(0), WasReset(0), WasClosed(0)], step)
         == if m == 0 then 1 else 0
  {
    assert [Opened(0), Wrote(0), WasClosed(0)] == [Opened(0), Wrote(0)] + [WasClosed(0)];
    assert [Opened(0), Wrote(0), WasReset(0), WasClosed(0)] == [Opened(0), Wrote(0)] + [WasReset(0), WasClosed(0)];
    CountAppend([Opened(0), Wrote(0)], [WasClosed(0)], step);
    CountAppend([Opened(0), Wrote(0)], [WasReset(0), WasClosed(0)], step);
    CountTwo(Opened(0), Wrote(0), step);
    CountTwo(WasReset(0), WasClosed(0), step);
    CountOne(WasClosed(0), step);
  }

  lemma RewriteSteps(w: World, o: Options, m: nat, step: Step)
    requires step in {Opened(m), WasClosed(m), Wrote(m)}
    ensures var (found, more) := Reopen(w, o, 1);
            var log := [Opened(0), Wrote(0), WasReset(0), WasClosed(0)] + more;
            && Count(log, step) == (if m == 0 || (step.Opened? && found == Some(m)) then 1 else 0)
            && (found.Some? ==>
                  && found.value > 0
                  && Count(log + [WasClosed(found.value)], step)
                     == if m == 0 || (!step.Wrote? && found == Some(m)) then 1 else 0)
  {
    var (found, more) := Reopen(w, o, 1);
    var log := [Opened(0), Wrote(0), WasReset(0), WasClosed(0)] + more;
    ReopenSteps(w, o, 1, m);
    WriteSteps(m, step);
    CountAppend([Opened(0), Wrote(0), WasReset(0), WasClosed(0)], more, step);
    if found.Some? {
      CountAppend(log, [WasClosed(found.value)], step);
      CountOne(WasClosed(found.value), step);
    }
  }

  /**
    * However the adapter behaves: every adapter that was opened is closed exactly once, and at most one was written to,
    * once.
    */
  lemma EverySessionIsClosedOnce(w: World, target: seq<byte>, o: Options, m: nat)
    ensures var log := Prepare(w, target, o).log;
            && Count(log, Opened(m)) == Count(log, WasClosed(m)) <= 1
            && Count(log, Wrote(m)) <= (if m == 0 then 1 else 0)
  {
    hide Count, Reopen;
    FirstSteps(m);
    forall step | step in {Opened(m), WasClosed(m), Wrote(m)}
      ensures Count([Opened(0), Wrote(0), WasClosed(0)], step) == if m == 0 then 1 else 0
    {
      WriteSteps(m, step);
    }
    ReopenSteps(w, o, 1, m);
    RewriteSteps(w, o, m, Opened(m));
    RewriteSteps(w, o, m, WasClosed(m));
    RewriteSteps(w, o, m, Wrote(m));
  }

  /** An error asks for recovery if and only if the adapter was written to. */
  lemma RecoveryExactlyAfterWrite(w: World, target: seq<byte>, o: Options)
    ensures var r := Prepare(w, target, o);
            r.result.Failure? ==> (r.result.error.kind == RecoveryRequired <==> Count(r.log, Wrote(0)) == 1)
  {
    hide Count, Reopen;
    FirstSteps(0);
    WriteSteps(0, Wrote(0));
    ReopenSteps(w, o, 1, 0);
    RewriteSteps(w, o, 0, Wrote(0));
  }

  /** Success means what it says: the address was there already, or an adapter opened after the write reads it back. */
  lemma SuccessIsVerified(w: World, target: seq<byte>, o: Options)
    ensures var r := Prepare(w, target, o);
            && (r.result == Success(AlreadyActive) <==>
                  w.open(0).Some? && w.open(0).value.company == Some(CSR) && w.open(0).value.address == Some(target)
                      && w.open(0).value.closes)
            && (r.result == Success(AlreadyActive) ==> Count(r.log, Wrote(0)) == 0)
            && (r.result == Success(Rewritten) ==>
                  && Count(r.log, Wrote(0)) == 1 && w.open(0).Some? && w.open(0).value.vendor == Status(0)
                  && exists n: nat :: n > 0 && Count(r.log, Opened(n)) == 1 && ReadsBack(w.open(n), target))
  {
    hide Count, Reopen;
    FirstSteps(0);
    var r, found := Prepare(w, target, o), Reopen(w, o, 1).0;
    if r.result == Success(Rewritten) {
      var n := if found.Some? then found.value else 0;
      ReopenSteps(w, o, 1, n);
      RewriteSteps(w, o, n, Opened(n));
      RewriteSteps(w, o, 0, Wrote(0));
      assert n > 0 && Count(r.log, Opened(n)) == 1 && ReadsBack(w.open(n), target);
    }
  }

  // An adapter of the right kind that reads back the target and lets itself be closed.
  predicate ReadsBack(d: Option<Device>, target: seq<byte>) {
    d.Some? && d.value.company == Some(CSR) && d.value.address == Some(target) && d.value.closes
  }

  // ---------------------------------------------------------------------------
  // The object
  // ---------------------------------------------------------------------------

  // The backend: counts the attempts to open and the sleeps, and notes what is done.
  class Backend {
    const world: World
    var attempts: nat
    var sleeps: nat
    var log: seq<Step>

    constructor (w: World)
      ensures world == w && attempts == 0 && sleeps == 0 && log == []
    {
      world, attempts, sleeps, log := w, 0, 0, [];
    }

    method OpenSession() returns (n: nat, r: Option<Device>)
      modifies this
      ensures n == old(attempts) && r == world.open(n) && attempts == n + 1 && sleeps == old(sleeps)
      ensures log == old(log) + [if r.Some? then Opened(n) else OpenFailed(n)]
    {
      n := attempts;
      r := world.open(n);
      attempts := attempts + 1;
      log := log + [if r.Some? then Opened(n) else OpenFailed(n)];
    }

    method Sleep(time: nat)
      modifies this
      ensures sleeps == old(sleeps) + 1 && attempts == old(attempts) && log == old(log) + [Slept(time)]
    {
      sleeps, log := sleeps + 1, log + [Slept(time)];
    }

    method Note(step: Step)
      modifies this
      ensures log == old(log) + [step] && attempts == old(attempts) && sleeps == old(sleeps)
    {
      log := log + [step];
    }

    // The retry loop.
    method OpenReenumerated(o: Options) returns (found: Option<nat>)
      requires attempts == 1 && sleeps == 0
      modifies this
      ensures found == Reopen(world, o, 1).0 && log == old(log) + Reopen(world, o, 1).1
    {
      var deadline := Deadline(world, o);
      assert log + Reopen(world, o, 1).1 == old(log) + Reopen(world, o, 1).1;
      while true
        invariant attempts == sleeps + 1
        invariant Reopen(world, o, attempts).0 == Reopen(world, o, 1).0
        invariant log + Reopen(world, o, attempts).1 == old(log) + Reopen(world, o, 1).1
        decreases deadline - attempts * Interval(o)
      {
        ghost var before, k := log, attempts;
        Sleep(Interval(o));
        var n, d := OpenSession();
        assert log == before + [Slept(Interval(o)), if d.Some? then Opened(n) else OpenFailed(n)];
        if d.Some? { return Some(n); }
        if Now(world, o, n) >= deadline { return None; }
        LaterIsCloser(world, o, n);
        ghost var more := Reopen(world, o, n + 1).1;
        assert before + ([Slept(Interval(o)), OpenFailed(n)] + more) == log + more;
      }
    }

    // Fail before the write: close, whatever closing says, and report.
    method GiveUp(n: nat, kind: Kind, stage: Stage) returns (r: Result<Preparation, Failed>)
      modifies this
      ensures r == Failure(Failed(kind, stage)) && log == old(log) + [WasClosed(n)]
    {
      Note(WasClosed(n));
      r := Failure(Failed(kind, stage));
    }

    method PrepareIdentity(target: seq<byte>, o: Options) returns (r: Result<Preparation, Failed>)
      requires attempts == 0 && sleeps == 0 && log == []
      modifies this
      ensures Outcome(r, log) == Prepare(world, target, o)
    {
      hide Reopen;
      var _, opened0 := OpenSession();
      if opened0.None? { return Failure(Failed(FailedBeforeWrite, Stage.Open)); }
      var d := opened0.value;
      assert log == [Opened(0)] && log + [WasClosed(0)] == [Opened(0), WasClosed(0)];
      if d.company.None? { r := GiveUp(0, FailedBeforeWrite, Initialize); return; }
      if d.company.value != CSR { r := GiveUp(0, UnsupportedController, Initialize); return; }
      if d.address.None? { r := GiveUp(0, FailedBeforeWrite, ReadCurrent); return; }
      if d.address.value == target {
        Note(WasClosed(0));
        return if d.closes then Success(AlreadyActive) else Failure(Failed(FailedBeforeWrite, Stage.Close));
      }
      Note(Wrote(0));
      assert log + [WasClosed(0)] == [Opened(0), Wrote(0), WasClosed(0)];
      if d.vendor != Status(0) { r := GiveUp(0, RecoveryRequired, Write); return; }
      Note(WasReset(0));
      Note(WasClosed(0));
      assert log == [Opened(0), Wrote(0), WasReset(0), WasClosed(0)];
      var found := OpenReenumerated(o);
      if found.None? || world.open(found.value).None? { return Failure(Failed(RecoveryRequired, Reenumeration)); }
      var back := world.open(found.value).value;
      Note(WasClosed(found.value));
      if back.company.None? || back.company.value != CSR || back.address.None? {
        return Failure(Failed(RecoveryRequired, Readback));
      }
      if !back.closes { return Failure(Failed(RecoveryRequired, Stage.Close)); }
      if back.address.value != target { return Failure(Failed(RecoveryRequired, Readback)); }
      r := Success(Rewritten);
    }
  }
}
