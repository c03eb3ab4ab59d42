/**
  * Credit-based flow control of ACL packets: at most as many packets are with the
  * controller as it has buffers for, and it says which handle's buffers came free.
  */
module AclFlow {
  import opened Bytes
  import opened Hci

  datatype Flow = Flow(payloadSize: nat, total: u16, inFlight: map<u16, u16>, queued: seq<AclPacket>)

  datatype FlowError = CreditUnderflow(inFlight: u16, completed: u16)

  function Fresh(payloadSize: nat, total: u16): Flow { Flow(payloadSize, total, map[], []) }

  function Count(inFlight: map<u16, u16>, handle: u16): u16 { if handle in inFlight then inFlight[handle] else 0 }

  // The credits in use by the handles from `handle` on, in the map's order.
  function Sum(inFlight: map<u16, u16>, handle: nat): nat
    requires handle <= 0x1_0000
    decreases 0x1_0000 - handle
  {
    if handle > 0xFFFF then 0 else Count(inFlight, handle) + Sum(inFlight, handle + 1)
  }

  function Total(f: Flow): nat { Sum(f.inFlight, 0) }

  predicate Valid(f: Flow) { Total(f) <= f.total && forall h <- f.inFlight :: f.inFlight[h] > 0 }

  lemma {:induction false} SumUpdate(m: map<u16, u16>, n: map<u16, u16>, key: u16, handle: nat)
    requires handle <= 0x1_0000
    requires forall h: u16 :: h != key ==> Count(n, h) == Count(m, h)
    ensures Sum(n, handle) == Sum(m, handle) + (if handle <= key then Count(n, key) - Count(m, key) else 0)
    decreases 0x1_0000 - handle
  {
    if handle <= 0xFFFF { SumUpdate(m, n, key, handle + 1); }
  }

  lemma {:induction false} CountWithinSum(m: map<u16, u16>, key: u16, handle: nat)
    requires handle <= key
    ensures Count(m, key) <= Sum(m, handle)
    decreases 0x1_0000 - handle
  {
    if handle < key { CountWithinSum(m, key, handle + 1); }
  }

  function Enqueue(f: Flow, packets: seq<AclPacket>): Flow { f.(queued := f.queued + packets) }

  // One turn of the flush loop.
  function Release(f: Flow): Flow
    requires Valid(f) && f.queued != [] && Total(f) < f.total
  {
    var h := f.queued[0].handle;
    CountWithinSum(f.inFlight, h, 0);
    f.(inFlight := f.inFlight[h := Count(f.inFlight, h) + 1], queued := f.queued[1..])
  }

  lemma ReleaseKeeps(f: Flow)
    requires Valid(f) && f.queued != [] && Total(f) < f.total
    ensures Valid(Release(f)) && Total(Release(f)) == Total(f) + 1
    ensures Release(f).queued == f.queued[1..]
    ensures forall h: u16 ::
            Count(Release(f).inFlight, h) == Count(f.inFlight, h) + if f.queued[0].handle == h then 1 else 0
  {
    SumUpdate(f.inFlight, Release(f).inFlight, f.queued[0].handle, 0);
    CountWithinSum(f.inFlight, f.queued[0].handle, 0);
  }

  // The flow after a flush and the packets it hands to the controller.
  function Flush(f: Flow): (r: (Flow, seq<AclPacket>))
    requires Valid(f)
    ensures Valid(r.0) && r.0.total == f.total && r.0.payloadSize == f.payloadSize
    decreases |f.queued|
  {
    if Total(f) < f.total && f.queued != [] then
      ReleaseKeeps(f);
      var (g, out) := Flush(Release(f));
      (g, [f.queued[0]] + out)
    else (f, [])
  }

  function Complete(f: Flow, handle: u16, completed: u16): Result<Flow, FlowError> {
    var n := Count(f.inFlight, handle);
    if completed > n then Failure(CreditUnderflow(n, completed))
    else if n == completed then Success(f.(inFlight := f.inFlight - {handle}))
    else Success(f.(inFlight := f.inFlight[handle := n - completed]))
  }

  function WithoutHandle(packets: seq<AclPacket>, handle: u16): seq<AclPacket> {
    if packets == [] then []
    else (if packets[0].handle == handle then [] else [packets[0]]) + WithoutHandle(packets[1..], handle)
  }

  function ClearHandle(f: Flow, handle: u16): Flow {
    f.(inFlight := f.inFlight - {handle}, queued := WithoutHandle(f.queued, handle))
  }

  // ---------------------------------------------------------------------------
  // What each operation does
  // ---------------------------------------------------------------------------

  // How many of these packets have the handle.
  function Number(packets: seq<AclPacket>, handle: u16): nat { |OfHandle(packets, handle)| }

  /**
    * A flush takes packets from the front of the queue, in order, charges each to its
    * handle, and stops only when the queue is empty or the controller is full.
    */
  lemma {:induction false} FlushConserves(f: Flow)
    requires Valid(f)
    ensures var (g, out) := Flush(f);
            && out + g.queued == f.queued
            && Settled(g)
            && forall h: u16 :: Count(g.inFlight, h) == Count(f.inFlight, h) + Number(out, h)
    decreases |f.queued|
  {
    hide Total, Release, Count, OfHandle;
    var (g, out) := Flush(f);
    if Total(f) < f.total && f.queued != [] {
      ReleaseKeeps(f);
      FlushConserves(Release(f));
      var rest := Flush(Release(f)).1;
      Prepended(f.queued, rest, g.queued);
      forall h: u16 ensures Number(out, h) == Number(rest, h) + if f.queued[0].handle == h then 1 else 0 {
        NumberFirst(f.queued[0], rest, h);
      }
    } else {
      assert out + g.queued == f.queued;
      forall h: u16 ensures Number(out, h) == 0 { NumberNone(h); }
    }
  }

  lemma Prepended(all: seq<AclPacket>, rest: seq<AclPacket>, last: seq<AclPacket>)
    requires all != [] && rest + last == all[1..]
    ensures [all[0]] + rest + last == all
  {
    assert [all[0]] + rest + last == [all[0]] + (rest + last);
  }

  lemma NumberFirst(p: AclPacket, rest: seq<AclPacket>, h: u16)
    ensures Number([p] + rest, h) == Number(rest, h) + if p.handle == h then 1 else 0
  {
    assert ([p] + rest)[1..] == rest;
  }

  lemma NumberNone(h: u16)
    ensures Number([], h) == 0
  {
  }

  lemma CompleteKeeps(f: Flow, handle: u16, completed: u16)
    requires Valid(f)
    ensures var r := Complete(f, handle, completed);
            && (r.Success? <==> completed <= Count(f.inFlight, handle))
            && (r.Success? ==>
                  && Valid(r.value) && Total(r.value) == Total(f) - completed && r.value.queued == f.queued
                  && Count(r.value.inFlight, handle) == Count(f.inFlight, handle) - completed
                  && forall h: u16 :: h != handle ==> Count(r.value.inFlight, h) == Count(f.inFlight, h))
  {
    var r := Complete(f, handle, completed);
    if r.Success? { SumUpdate(f.inFlight, r.value.inFlight, handle, 0); }
  }

  lemma ClearKeeps(f: Flow, handle: u16)
    requires Valid(f)
    ensures var g := ClearHandle(f, handle);
            && Valid(g) && Count(g.inFlight, handle) == 0 && Number(g.queued, handle) == 0
            && forall h: u16 :: h != handle ==>
                 Count(g.inFlight, h) == Count(f.inFlight, h) && OfHandle(g.queued, h) == OfHandle(f.queued, h)
  {
    var g := ClearHandle(f, handle);
    SumUpdate(f.inFlight, g.inFlight, handle, 0);
    WithoutRemoves(f.queued, handle, handle);
    forall h: u16 ensures h != handle ==> OfHandle(g.queued, h) == OfHandle(f.queued, h) {
      WithoutRemoves(f.queued, handle, h);
    }
  }

  lemma {:induction false} WithoutRemoves(packets: seq<AclPacket>, handle: u16, h: u16)
    ensures OfHandle(WithoutHandle(packets, handle), h) == if h == handle then [] else OfHandle(packets, h)
  {
    if packets != [] {
      WithoutRemoves(packets[1..], handle, h);
      var rest := WithoutHandle(packets[1..], handle);
      if packets[0].handle == handle {
        assert WithoutHandle(packets, handle) == rest;
      } else {
        var all := WithoutHandle(packets, handle);
        assert all[0] == packets[0] && all[1..] == rest;
      }
    }
  }

  lemma {:induction false} NothingInFlight(handle: nat)
    requires handle <= 0x1_0000
    ensures Sum(map[], handle) == 0
    decreases 0x1_0000 - handle
  {
    if handle <= 0xFFFF { NothingInFlight(handle + 1); }
  }

  // ---------------------------------------------------------------------------
  // Whole runs
  // ---------------------------------------------------------------------------

  datatype Operation =
    | Submit(packets: seq<AclPacket>)
    | FlushNow
    | Completed(handle: u16, completed: u16)
    | Cleared(handle: u16)

  // What happened: a packet came in, a packet went out, buffers came back, a handle was wiped.
  datatype Entry = In(packet: AclPacket) | Out(packet: AclPacket) | Back(handle: u16, completed: u16)
      | Wipe(handle: u16)

  function Ins(packets: seq<AclPacket>): seq<Entry> { seq(|packets|, i requires 0 <= i < |packets| => In(packets[i])) }

  function Outs(packets: seq<AclPacket>): seq<Entry> {
    seq(|packets|, i requires 0 <= i < |packets| => Out(packets[i]))
  }

  function Perform(f: Flow, log: seq<Entry>, op: Operation): (Flow, seq<Entry>)
    requires Valid(f)
  {
    match op
    case Submit(packets) => (Enqueue(f, packets), log + Ins(packets))
    case FlushNow => (Flush(f).0, log + Outs(Flush(f).1))
    case Completed(handle, completed) =>
      var r := Complete(f, handle, completed);
      if r.Failure? then (f, log) else (r.value, log + [Back(handle, completed)])
    case Cleared(handle) => (ClearHandle(f, handle), log + [Wipe(handle)])
  }

  // What waits after these events in a plain queue, or None when something left it out of turn.
  function Waiting(log: seq<Entry>): Option<seq<AclPacket>> {
    if log == [] then Some([])
    else
      var before := Waiting(log[..|log| - 1]);
      if before.None? then None
      else
        var queue := before.value;
        match log[|log| - 1]
        case In(p) => Some(queue + [p])
        case Out(p) => if queue != [] && queue[0] == p then Some(queue[1..]) else None
        case Back(_, _) => before
        case Wipe(handle) => Some(WithoutHandle(queue, handle))
  }

  // Packets of the handle handed out since it was last wiped, less the buffers that came back.
  function Outstanding(log: seq<Entry>, handle: u16): int {
    if log == [] then 0
    else
      var before := Outstanding(log[..|log| - 1], handle);
      match log[|log| - 1]
      case In(_) => before
      case Out(p) => if p.handle == handle then before + 1 else before
      case Back(h, completed) => if h == handle then before - completed else before
      case Wipe(h) => if h == handle then 0 else before
  }

  ghost predicate Accounted(f: Flow, log: seq<Entry>) {
    && Valid(f)
    && Waiting(log) == Some(f.queued)
    && forall h: u16 :: Count(f.inFlight, h) == Outstanding(log, h)
  }

  lemma AppendOne(log: seq<Entry>, e: Entry)
    ensures (log + [e])[..|log + [e]| - 1] == log && (log + [e])[|log + [e]| - 1] == e
  {
  }

  lemma {:induction false} InsAccount(log: seq<Entry>, queue: seq<AclPacket>, packets: seq<AclPacket>, h: u16)
    requires Waiting(log) == Some(queue)
    ensures Waiting(log + Ins(packets)) == Some(queue + packets)
            && Outstanding(log + Ins(packets), h) == Outstanding(log, h)
    decreases |packets|
  {
    if packets == [] {
      assert log + Ins(packets) == log && queue + packets == queue;
    } else {
      var n := |packets| - 1;
      InsAccount(log, queue, packets[..n], h);
      AppendOne(log + Ins(packets[..n]), In(packets[n]));
      assert log + Ins(packets[..n]) + [In(packets[n])] == log + Ins(packets);
      assert queue + packets[..n] + [packets[n]] == queue + packets;
    }
  }

  lemma {:induction false} OutsAccount(log: seq<Entry>, packets: seq<AclPacket>, rest: seq<AclPacket>, h: u16)
    requires Waiting(log) == Some(packets + rest)
    ensures Waiting(log + Outs(packets)) == Some(rest)
    ensures Outstanding(log + Outs(packets), h) == Outstanding(log, h) + Number(packets, h)
    decreases |packets|
  {
    if packets == [] {
      assert log + Outs(packets) == log && packets + rest == rest;
    } else {
      var p := packets[0];
      AppendOne(log, Out(p));
      assert (packets + rest)[0] == p && (packets + rest)[1..] == packets[1..] + rest;
      OutsAccount(log + [Out(p)], packets[1..], rest, h);
      assert log + [Out(p)] + Outs(packets[1..]) == log + Outs(packets);
    }
  }

  /** Every operation keeps the account. */
  lemma PerformAccounts(f: Flow, log: seq<Entry>, op: Operation)
    requires Accounted(f, log)
    ensures var (g, after) := Perform(f, log, op);
            Accounted(g, after) && g.total == f.total
  {
    hide Accounted, Flush, Complete, ClearHandle, Enqueue;
    match op
    case Submit(packets) => SubmitAccounts(f, log, packets);
    case FlushNow => FlushAccounts(f, log);
    case Completed(handle, completed) => CompletedAccounts(f, log, handle, completed);
    case Cleared(handle) => ClearedAccounts(f, log, handle);
  }

  lemma SubmitAccounts(f: Flow, log: seq<Entry>, packets: seq<AclPacket>)
    requires Accounted(f, log)
    ensures Accounted(Enqueue(f, packets), log + Ins(packets)) && Enqueue(f, packets).total == f.total
  {
    hide Outstanding, Waiting, Valid, Count;
    forall h: u16
      ensures Outstanding(log + Ins(packets), h) == Outstanding(log, h)
    {
      InsAccount(log, f.queued, packets, h);
    }
    InsAccount(log, f.queued, packets, 0);
    SameCredits(f, Enqueue(f, packets));
  }

  lemma FlushAccounts(f: Flow, log: seq<Entry>)
    requires Accounted(f, log)
    ensures Accounted(Flush(f).0, log + Outs(Flush(f).1)) && Flush(f).0.total == f.total
  {
    hide Outstanding, Waiting, Valid, Count, Flush, Number;
    FlushConserves(f);
    var (g, out) := Flush(f);
    forall h: u16
      ensures Outstanding(log + Outs(out), h) == Count(g.inFlight, h)
    {
      OutsAccount(log, out, g.queued, h);
    }
    OutsAccount(log, out, g.queued, 0);
  }

  lemma CompletedAccounts(f: Flow, log: seq<Entry>, handle: u16, completed: u16)
    requires Accounted(f, log)
    ensures var r := Complete(f, handle, completed);
            r.Success? ==> Accounted(r.value, log + [Back(handle, completed)]) && r.value.total == f.total
  {
    hide Valid, Count, Complete;
    CompleteKeeps(f, handle, completed);
    AppendOne(log, Back(handle, completed));
    if Complete(f, handle, completed).Success? { CompleteKeepsTotal(f, handle, completed); }
  }

  lemma ClearedAccounts(f: Flow, log: seq<Entry>, handle: u16)
    requires Accounted(f, log)
    ensures Accounted(ClearHandle(f, handle), log + [Wipe(handle)]) && ClearHandle(f, handle).total == f.total
  {
    hide Valid, Count, ClearHandle;
    ClearKeeps(f, handle);
    AppendOne(log, Wipe(handle));
    ClearFields(f, handle);
  }

  lemma SameCredits(f: Flow, g: Flow)
    requires Valid(f) && g.inFlight == f.inFlight && g.total == f.total
    ensures Valid(g)
  {
  }

  lemma CompleteKeepsTotal(f: Flow, handle: u16, completed: u16)
    requires Complete(f, handle, completed).Success?
    ensures Complete(f, handle, completed).value.total == f.total
  {
  }

  lemma ClearFields(f: Flow, handle: u16)
    ensures ClearHandle(f, handle).queued == WithoutHandle(f.queued, handle) && ClearHandle(f, handle).total == f.total
  {
  }

  ghost predicate Run(flows: seq<Flow>, logs: seq<seq<Entry>>, ops: seq<Operation>, payloadSize: nat, total: u16) {
    && |flows| == |logs| == |ops| + 1
    && flows[0] == Fresh(payloadSize, total) && logs[0] == []
    && forall i :: 0 <= i < |ops| ==>
       Valid(flows[i]) && (flows[i + 1], logs[i + 1]) == Perform(flows[i], logs[i], ops[i])
  }

  /**
    * Over any interleaving of enqueues, flushes, completions and clears: never more packets
    * with the controller than it has buffers, each handle charged exactly what it has
    * outstanding, and packets leaving in the order they came, none lost, none twice.
    */
  lemma {:induction false} CreditConservation(
      flows: seq<Flow>, logs: seq<seq<Entry>>, ops: seq<Operation>, payloadSize: nat, total: u16, n: nat)
    requires Run(flows, logs, ops, payloadSize, total) && n < |flows|
    ensures Accounted(flows[n], logs[n]) && flows[n].total == total && Total(flows[n]) <= total
  {
    if n == 0 {
      NothingInFlight(0);
    } else {
      hide Perform, Accounted, Total;
      CreditConservation(flows, logs, ops, payloadSize, total, n - 1);
      PerformAccounts(flows[n - 1], logs[n - 1], ops[n - 1]);
      assert (flows[n - 1 + 1], logs[n - 1 + 1]) == Perform(flows[n - 1], logs[n - 1], ops[n - 1]);
      AccountedTotal(flows[n], logs[n]);
    }
  }

  lemma AccountedTotal(f: Flow, log: seq<Entry>)
    requires Accounted(f, log)
    ensures Total(f) <= f.total
  {
  }

  // Nothing waits that could go: what every flush leaves behind.
  predicate Settled(f: Flow) { f.queued == [] || Total(f) == f.total }

  /**
    * Clearing a handle without flushing leaves packets waiting beside free credits exactly when other handles have
    * packets queued and the cleared one held credits.
    */
  lemma ClearSettlesExactly(f: Flow, handle: u16)
    requires Valid(f) && Settled(f)
    ensures Settled(ClearHandle(f, handle)) <==> WithoutHandle(f.queued, handle) == [] || Count(f.inFlight, handle) == 0
  {
    var g := ClearHandle(f, handle);
    SumUpdate(f.inFlight, g.inFlight, handle, 0);
    hide Sum;
  }

  // One packet for each of two handles, and a controller with one buffer.
  function TwoQueued(): Flow { Enqueue(Fresh(4, 1), [AclPacket(1, 0, 0, []), AclPacket(2, 0, 0, [])]) }

  /** From a new flow: two packets queued, one released, and the clear of its handle leaves the other waiting. */
  lemma ClearLeavesWaiting()
    ensures Valid(TwoQueued()) && Settled(Flush(TwoQueued()).0) && !Settled(ClearHandle(Flush(TwoQueued()).0, 1))
  {
    NothingInFlight(0);
    var f := TwoQueued();
    ReleaseKeeps(f);
    var g := Release(f);
    assert Flush(f).0 == g;
    ClearSettlesExactly(g, 1);
    assert g.queued == [AclPacket(2, 0, 0, [])] && g.queued[1..] == [];
    assert WithoutHandle(g.queued, 1) == [AclPacket(2, 0, 0, [])] + [];
  }
}
