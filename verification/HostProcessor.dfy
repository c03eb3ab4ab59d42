/** The host as the mutable object it is, proved against module Host. */
module HostProcessor {
  import opened Bytes
  import Signaling
  import Channels
  import Hci
  import AclFlow
  import Spec = Host
  import opened Host

  lemma {:induction false} FragmentSnoc(handle: u16, size: nat, pdus: seq<Signaling.Pdu>, n: nat)
    requires n < |pdus| && FragmentAll(handle, size, pdus[..n]).1.None?
    ensures var (done, _) := FragmentAll(handle, size, pdus[..n]);
            var next := Hci.FragmentPdu(handle, 0, size, Signaling.EncodePdu(pdus[n]), false);
            && FragmentAll(handle, size, pdus[..n + 1])
               == (if next.Success? then (done + next.value, None) else (done, Some(next.error)))
            && (next.Failure? ==> FragmentAll(handle, size, pdus) == (done, Some(next.error)))
    decreases n
  {
    hide Hci.FragmentPdu, Signaling.EncodePdu;
    var now, later := pdus[..n], pdus[..n + 1];
    if n == 0 {
      assert later[1..] == [] && FragmentAll(handle, size, []) == ([], None);
      var next := Hci.FragmentPdu(handle, 0, size, Signaling.EncodePdu(pdus[0]), false);
      if next.Success? { assert next.value + [] == [] + next.value; }
    } else {
      assert now[1..] == pdus[1..][..n - 1] && later[1..] == pdus[1..][..n];
      FragmentSnoc(handle, size, pdus[1..], n - 1);
      var first := Hci.FragmentPdu(handle, 0, size, Signaling.EncodePdu(pdus[0]), false).value;
      var done := FragmentAll(handle, size, now[1..]).0;
      var next := Hci.FragmentPdu(handle, 0, size, Signaling.EncodePdu(pdus[n]), false);
      if next.Success? { assert first + (done + next.value) == first + done + next.value; }
    }
  }

  class ClassicHost {
    var bonds: map<Address, Bond>
    var connection: Option<Connection>
    var pendingPeer: Option<Address>
    var servers: map<u32, Channels.ChannelSpec>
    var pending: map<u16, Hci.Pending>
    var flow: AclFlow.Flow
    var output: seq<HostOutput>

    ghost function View(): Host
      reads this
    {
      Host(bonds, connection, pendingPeer, servers, pending, flow, output)
    }

    constructor (store: map<Address, Bond>, payloadSize: nat, total: u16)
      ensures View() == Fresh(store, payloadSize, total) && ValidHost(View())
    {
      bonds, connection, pendingPeer, servers := store, None, None, map[];
      pending, flow, output := map[], AclFlow.Fresh(payloadSize, total), [];
      new;
      AclFlow.NothingInFlight(0);
    }

    // Cut these PDUs and queue their packets, up to the first that cannot be cut.
    method EnqueueAll(handle: u16, pdus: seq<Signaling.Pdu>) returns (error: Option<Hci.HciError>)
      modifies this
      ensures View() == old(View()).(flow := AclFlow.Enqueue(old(flow),
                                                             FragmentAll(handle, old(flow).payloadSize, pdus).0))
      ensures error == FragmentAll(handle, old(flow).payloadSize, pdus).1
    {
      hide Hci.FragmentPdu, Signaling.EncodePdu;
      var i, size := 0, flow.payloadSize;
      ghost var packets: seq<Hci.AclPacket> := [];
      assert pdus[..0] == [] && AclFlow.Enqueue(flow, []) == flow;
      while i < |pdus|
        invariant 0 <= i <= |pdus|
        invariant FragmentAll(handle, size, pdus[..i]) == (packets, None)
        invariant View() == old(View()).(flow := AclFlow.Enqueue(old(flow), packets))
      {
        FragmentSnoc(handle, size, pdus, i);
        var next := Hci.FragmentPdu(handle, 0, size, Signaling.EncodePdu(pdus[i]), false);
        if next.Failure? { return Some(next.error); }
        assert old(flow).queued + (packets + next.value) == old(flow).queued + packets + next.value;
        packets := packets + next.value;
        flow := AclFlow.Enqueue(flow, next.value);
        i := i + 1;
      }
      assert pdus[..|pdus|] == pdus;
      error := None;
    }

    // Every queued PDU becomes packets; the packets go out as far as credits allow; accepted channels are announced.
    method FlushChannels() returns (error: Option<HostError>)
      requires AclFlow.Valid(flow)
      modifies this
      ensures Outcome(View(), error) == Spec.FlushChannels(old(View()))
    {
      hide AclFlow.Valid, FragmentAll, FlushFlow, OpenedEvents, AclFlow.Flush;
      if connection.None? { return Some(NoConnection); }
      var c := connection.value;
      var announcements := Announce(c.channels, c.channels.accepted);
      connection := Some(c.(channels := c.channels.(outbound := [], accepted := [])));
      var failed := EnqueueAll(c.handle, c.channels.outbound);
      if failed.Some? { return Some(Codec(failed.value)); }
      assert AclFlow.Valid(flow) by { AclFlow.SameCredits(old(flow), flow); }
      ghost var before := View();
      var (released, out) := AclFlow.Flush(flow);
      flow, output := released, output + AclOuts(out);
      assert View() == FlushFlow(before) by { FlushFlowFields(before); }
      output := output + announcements;
      error := None;
    }

    method Announce(m: Channels.Manager, cids: seq<u16>) returns (r: seq<HostOutput>)
      ensures r == OpenedEvents(m, cids)
    {
      r := [];
      var i := 0;
      while i < |cids|
        invariant 0 <= i <= |cids|
        invariant r + OpenedEvents(m, cids[i..]) == OpenedEvents(m, cids)
      {
        assert cids[i..][0] == cids[i] && cids[i..][1..] == cids[i + 1..];
        if cids[i] in m.channels {
          ghost var rest := OpenedEvents(m, cids[i + 1..]);
          var e := EventOut(ChannelOpened(m.channels[cids[i]].psm, cids[i]));
          assert r + ([e] + rest) == r + [e] + rest;
          r := r + [e];
        }
        i := i + 1;
      }
    }

    method ProcessAcl(p: Hci.AclPacket) returns (error: Option<HostError>)
      requires AclFlow.Valid(flow)
      modifies this
      ensures Outcome(View(), error) == Spec.ProcessAcl(old(View()), p)
    {
      hide AclFlow.Valid, Spec.FlushChannels, Channels.ProcessPdu, Hci.FeedPacket, Signaling.DecodePdu;
      var mismatch := CheckHandle(Host(bonds, connection, pendingPeer, servers, pending, flow, output), p.handle);
      if mismatch.Some? { return Some(mismatch.value); }
      var (after, reply) := Hci.FeedPacket(pending, p);
      pending := after;
      if reply.Failure? { return Some(Codec(reply.error)); }
      if reply.value.None? { return None; }
      var pdu := Signaling.DecodePdu(reply.value.value);
      if pdu.Failure? { return Some(Spec.Pdu(pdu.error)); }
      var r := Channels.ProcessPdu(connection.value.channels, pdu.value);
      connection := Some(connection.value.(channels := r.manager));
      if r.error.Some? { return Some(L2cap(r.error.value)); }
      error := FlushChannels();
    }

    method SendChannelSdu(cid: u16, sdu: seq<byte>) returns (error: Option<HostError>)
      requires ValidHost(View())
      modifies this
      ensures Outcome(View(), error) == Spec.SendChannelSdu(old(View()), cid, sdu)
    {
      hide AclFlow.Valid, Spec.FlushChannels, Channels.Send;
      if connection.None? { return Some(NoConnection); }
      var r := Channels.Send(connection.value.channels, cid, sdu);
      connection := Some(connection.value.(channels := r.manager));
      if r.error.Some? { return Some(L2cap(r.error.value)); }
      error := FlushChannels();
    }

    method ConnectChannel(psm: u32, spec: Channels.ChannelSpec) returns (r: Result<u16, HostError>)
      requires AclFlow.Valid(flow)
      modifies this
      ensures Outcome(View(), if r.Failure? then Some(r.error) else None) == Spec.ConnectChannel(old(View()), psm, spec)
      ensures r.Success? ==>
                old(connection).Some?
                    && Channels.Connect(old(connection).value.channels, psm, spec).1 == Success(r.value)
    {
      hide AclFlow.Valid, Spec.FlushChannels, Channels.Connect;
      if connection.None? { return Failure(NoConnection); }
      var (m, made) := Channels.Connect(connection.value.channels, psm, spec);
      if made.Failure? { return Failure(L2cap(made.error)); }
      connection := Some(connection.value.(channels := m));
      var error := FlushChannels();
      r := if error.Some? then Failure(error.value) else Success(made.value);
    }

    // Credits that came back, and the packets they let go.
    method OnCompleted(handle: u16, completed: u16) returns (error: Option<HostError>)
      requires AclFlow.Valid(flow)
      modifies this
      ensures Outcome(View(), error) == Spec.OnCompleted(old(View()), handle, completed)
    {
      var r := AclFlow.Complete(flow, handle, completed);
      if r.Failure? { return Some(Credits(r.error)); }
      AclFlow.CompleteKeeps(flow, handle, completed);
      hide AclFlow.Flush, AclFlow.Valid, AclFlow.Complete;
      var (released, out) := AclFlow.Flush(r.value);
      flow, output := released, output + AclOuts(out);
      error := None;
    }

    // The output without the handle's packets.
    method Retain(handle: u16) returns (kept: seq<HostOutput>)
      ensures kept == WithoutAcl(output, handle)
    {
      kept := [];
      var i := 0;
      while i < |output|
        invariant 0 <= i <= |output|
        invariant kept + WithoutAcl(output[i..], handle) == WithoutAcl(output, handle)
      {
        assert output[i..][0] == output[i] && output[i..][1..] == output[i + 1..];
        if !(output[i].AclOut? && output[i].packet.handle == handle) {
          ghost var rest := WithoutAcl(output[i + 1..], handle);
          assert kept + ([output[i]] + rest) == kept + [output[i]] + rest;
          kept := kept + [output[i]];
        }
        i := i + 1;
      }
    }

    // The end of the connection: everything of its handle is dropped.
    method OnDisconnected(handle: u16, reason: byte) returns (error: Option<HostError>)
      modifies this
      ensures Outcome(View(), error) == Spec.OnDisconnected(old(View()), handle, reason)
    {
      hide AclFlow.ClearHandle;
      var mismatch := CheckHandle(Host(bonds, connection, pendingPeer, servers, pending, flow, output), handle);
      if mismatch.Some? { return Some(mismatch.value); }
      var peer := connection.value.peer;
      flow := AclFlow.ClearHandle(flow, handle);
      pending := pending - {handle};
      var kept := Retain(handle);
      connection := None;
      output := kept + [EventOut(Disconnected(peer, reason))];
      error := None;
    }

    method PopOutput() returns (r: Option<HostOutput>)
      modifies this
      ensures View() == Spec.PopOutput(old(View()))
      ensures r == if old(output) == [] then None else Some(old(output)[0])
    {
      if output == [] { return None; }
      r, output := Some(output[0]), output[1..];
    }
  }

  lemma FlushFlowFields(h: Host)
    requires AclFlow.Valid(h.flow)
    ensures FlushFlow(h) == h.(flow := AclFlow.Flush(h.flow).0, output := h.output + AclOuts(AclFlow.Flush(h.flow).1))
  {
  }
}
