/** The flow controller as the mutable object it is, proved against module AclFlow. */
module AclCredits {
  import opened Bytes
  import opened Hci
  import Spec = AclFlow
  import opened AclFlow

  /** One turn of the flush loop. */
  lemma FlushTurn(f: Flow, out: seq<AclPacket>)
    requires Valid(f) && f.queued != [] && Total(f) < f.total
    ensures Valid(Release(f)) && Count(f.inFlight, f.queued[0].handle) < 0xFFFF
    ensures Spec.Flush(f).0 == Spec.Flush(Release(f)).0
    ensures out + Spec.Flush(f).1 == out + [f.queued[0]] + Spec.Flush(Release(f)).1
  {
    hide Total, Release, Valid;
    ReleaseKeeps(f);
    CountWithinSum(f.inFlight, f.queued[0].handle, 0);
    assert Count(f.inFlight, f.queued[0].handle) <= Total(f) by { TotalIsSum(f); }
    var rest := Spec.Flush(Release(f)).1;
    assert out + ([f.queued[0]] + rest) == out + [f.queued[0]] + rest;
  }

  lemma TotalIsSum(f: Flow)
    ensures Total(f) == Sum(f.inFlight, 0)
  {
  }

  lemma ReleaseFields(f: Flow)
    requires Valid(f) && f.queued != [] && Total(f) < f.total
    ensures var h := f.queued[0].handle;
            && Count(f.inFlight, h) < 0xFFFF
            && Release(f) == f.(inFlight := f.inFlight[h := Count(f.inFlight, h) + 1], queued := f.queued[1..])
  {
    CountWithinSum(f.inFlight, f.queued[0].handle, 0);
  }

  /** The last turn: nothing to send, or no credit to send it with. */
  lemma FlushEnds(f: Flow, out: seq<AclPacket>)
    requires Valid(f)
    ensures f.queued == [] || Total(f) >= f.total ==> Spec.Flush(f) == (f, []) && out + [] == out
  {
    hide Total, Valid;
  }

  class CreditFlow {
    const payloadSize: nat
    const total: u16
    var inFlight: map<u16, u16>
    var queued: seq<AclPacket>

    ghost function View(): Flow
      reads this
    {
      Flow(payloadSize, total, inFlight, queued)
    }

    constructor (size: nat, packets: u16)
      ensures View() == Fresh(size, packets) && Valid(View())
    {
      payloadSize, total := size, packets;
      inFlight, queued := map[], [];
      new;
      NothingInFlight(0);
    }

    method InFlightTotal() returns (r: nat)
      ensures r == Total(View())
    {
      r := 0;
      var handle: nat := 0;
      while handle <= 0xFFFF
        invariant handle <= 0x1_0000
        invariant r + Sum(inFlight, handle) == Total(View())
      {
        r := r + Count(inFlight, handle);
        handle := handle + 1;
      }
    }

    method Enqueue(packets: seq<AclPacket>)
      modifies this
      ensures View() == Spec.Enqueue(old(View()), packets)
    {
      queued := queued + packets;
    }

    // What is released is appended to the host's output.
    method Flush(output: seq<AclPacket>) returns (r: seq<AclPacket>)
      requires Valid(View())
      modifies this
      ensures View() == Spec.Flush(old(View())).0 && r == output + Spec.Flush(old(View())).1
    {
      hide Spec.Flush, Valid, Total, Release;
      r := output;
      var used := InFlightTotal();
      while used < total
        invariant Valid(View()) && used == Total(View())
        invariant Spec.Flush(View()).0 == Spec.Flush(old(View())).0
        invariant r + Spec.Flush(View()).1 == output + Spec.Flush(old(View())).1
        decreases |queued|
      {
        if queued == [] { break; }
        var packet := queued[0];
        ghost var f, before := View(), r;
        FlushTurn(f, r);
        queued := queued[1..];
        inFlight := inFlight[packet.handle := Count(inFlight, packet.handle) + 1];
        assert View() == Release(f) by { ReleaseFields(f); }
        r := r + [packet];
        used := InFlightTotal();
      }
      FlushEnds(View(), r);
    }

    method Complete(handle: u16, completed: u16) returns (error: Option<FlowError>)
      modifies this
      ensures match Spec.Complete(old(View()), handle, completed)
              case Success(f) => View() == f && error.None?
              case Failure(e) => View() == old(View()) && error == Some(e)
    {
      var n := Count(inFlight, handle);
      if completed > n { return Some(CreditUnderflow(n, completed)); }
      if n - completed == 0 { inFlight := inFlight - {handle}; } else { inFlight := inFlight[handle := n - completed]; }
      error := None;
    }

    method ClearHandle(handle: u16)
      modifies this
      ensures View() == Spec.ClearHandle(old(View()), handle)
    {
      inFlight := inFlight - {handle};
      var kept: seq<AclPacket> := [];
      var i := 0;
      while i < |queued|
        invariant 0 <= i <= |queued| && queued == old(queued)
        invariant kept + WithoutHandle(queued[i..], handle) == WithoutHandle(queued, handle)
      {
        ghost var rest := WithoutHandle(queued[i + 1..], handle);
        assert queued[i..][1..] == queued[i + 1..];
        if queued[i].handle != handle {
          assert kept + ([queued[i]] + rest) == kept + [queued[i]] + rest;
          kept := kept + [queued[i]];
        }
        i := i + 1;
      }
      queued := kept;
    }
  }
}
