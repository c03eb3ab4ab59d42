/**
  * HCI packets on the wire, L2CAP PDUs cut into ACL packets, and their reassembly
  * per connection handle.
  */
module Hci {
  import opened Bytes

  const COMMAND_TYPE: byte := 0x01
  const ACL_TYPE: byte := 0x02
  const EVENT_TYPE: byte := 0x04
  const HANDLE_MAX: u16 := 0x0FFF
  const CONTINUATION: byte := 1

  datatype HciError =
    | EmptyPacket
    | UnsupportedPacketType(packetType: byte)
    | Truncated
    | TrailingBytes(expected: nat, actual: nat)
    | ParameterTooLong(actual: nat)
    | InvalidConnectionHandle(handle: u16)
    | InvalidPacketBoundary(boundary: byte)
    | InvalidBroadcastFlag(flag: byte)
    | InvalidL2capPdu
    | UnexpectedContinuation(handle: u16)
    | ContinuationOverflow(expected: nat, actual: nat)

  datatype AclPacket = AclPacket(handle: u16, boundary: byte, broadcast: byte, data: seq<byte>)

  datatype Packet =
    | Command(opcode: u16, parameters: seq<byte>)
    | Event(code: byte, parameters: seq<byte>)
    | Acl(acl: AclPacket)

  // ---------------------------------------------------------------------------
  // Packet codec
  // ---------------------------------------------------------------------------

  predicate ValidAcl(p: AclPacket) {
    p.handle <= HANDLE_MAX && p.boundary <= 3 && p.broadcast <= 3 && |p.data| <= 0xFFFF
  }

  // What the constructors let through.
  predicate ValidPacket(p: Packet) {
    match p
    case Command(_, parameters) => |parameters| <= 0xFF
    case Event(_, parameters) => |parameters| <= 0xFF
    case Acl(acl) => ValidAcl(acl)
  }

  function NewAcl(handle: u16, boundary: byte, broadcast: byte, data: seq<byte>): Result<AclPacket, HciError> {
    if handle > HANDLE_MAX then Failure(InvalidConnectionHandle(handle))
    else if boundary > 3 then Failure(InvalidPacketBoundary(boundary))
    else if broadcast > 3 then Failure(InvalidBroadcastFlag(broadcast))
    else if |data| > 0xFFFF then Failure(ParameterTooLong(|data|))
    else Success(AclPacket(handle, boundary, broadcast, data))
  }

  function Encode(p: Packet): seq<byte>
    requires ValidPacket(p)
  {
    match p
    case Command(opcode, parameters) => [COMMAND_TYPE] + Le16(opcode) + [|parameters|] + parameters
    case Event(code, parameters) => [EVENT_TYPE, code, |parameters|] + parameters
    case Acl(a) => [ACL_TYPE] + Le16(a.handle + 0x1000 * a.boundary + 0x4000 * a.broadcast) + Le16(|a.data|) + a.data
  }

  function ExactLength(actual: nat, expected: nat): Result<(), HciError> {
    if actual < expected then Failure(Truncated)
    else if actual > expected then Failure(TrailingBytes(expected, actual))
    else Success(())
  }

  function DecodeCommand(data: seq<byte>): Result<Packet, HciError> {
    if |data| < 4 then Failure(Truncated)
    else
      var length := ExactLength(|data|, 4 + data[3] as nat);
      if length.Failure? then Failure(length.error) else Success(Command(Le16At(data, 1), data[4..]))
  }

  function DecodeEvent(data: seq<byte>): Result<Packet, HciError> {
    if |data| < 3 then Failure(Truncated)
    else
      var length := ExactLength(|data|, 3 + data[2] as nat);
      if length.Failure? then Failure(length.error) else Success(Event(data[1], data[3..]))
  }

  function DecodeAcl(data: seq<byte>): Result<Packet, HciError> {
    if |data| < 5 then Failure(Truncated)
    else
      var header := Le16At(data, 1);
      var length := ExactLength(|data|, 5 + Le16At(data, 3));
      if length.Failure? then Failure(length.error)
      else
        var p := NewAcl(header % 0x1000, header / 0x1000 % 4, header / 0x4000 % 4, data[5..]);
        if p.Failure? then Failure(p.error) else Success(Acl(p.value))
  }

  function Decode(data: seq<byte>): Result<Packet, HciError> {
    if data == [] then Failure(EmptyPacket)
    else if data[0] == COMMAND_TYPE then DecodeCommand(data)
    else if data[0] == EVENT_TYPE then DecodeEvent(data)
    else if data[0] == ACL_TYPE then DecodeAcl(data)
    else Failure(UnsupportedPacketType(data[0]))
  }

  lemma HeaderFields(handle: u16, boundary: byte, broadcast: byte)
    requires handle <= HANDLE_MAX && boundary <= 3 && broadcast <= 3
    ensures var header := handle + 0x1000 * boundary + 0x4000 * broadcast;
            && header < 0x1_0000 && header % 0x1000 == handle
            && header / 0x1000 % 4 == boundary && header / 0x4000 % 4 == broadcast
  {
    var header := handle + 0x1000 * boundary + 0x4000 * broadcast;
    assert header / 0x1000 == boundary + 4 * broadcast;
  }

  lemma HeaderRebuilt(header: u16)
    ensures header == header % 0x1000 + 0x1000 * (header / 0x1000 % 4) + 0x4000 * (header / 0x4000 % 4)
  {
    assert header == header % 0x1000 + 0x1000 * (header / 0x1000);
  }

  /** What is encoded decodes to itself. */
  lemma PacketRoundTrip(p: Packet)
    requires ValidPacket(p)
    ensures Decode(Encode(p)) == Success(p)
  {
    var data := Encode(p);
    match p
    case Command(opcode, parameters) => assert data[4..] == parameters && Le16At(data, 1) == opcode;
    case Event(code, parameters) => assert data[3..] == parameters;
    case Acl(a) =>
      HeaderFields(a.handle, a.boundary, a.broadcast);
      assert data[5..] == a.data;
      assert Le16At(data, 1) == a.handle + 0x1000 * a.boundary + 0x4000 * a.broadcast && Le16At(data, 3) == |a.data|;
  }

  /** Whatever decodes was encoded from what it decodes to: no two byte strings mean the same packet. */
  lemma DecodedWasEncoded(data: seq<byte>)
    requires Decode(data).Success?
    ensures ValidPacket(Decode(data).value) && Encode(Decode(data).value) == data
  {
    match Decode(data).value
    case Command(opcode, parameters) =>
      Le16OfBytes(data[1], data[2]);
      assert data == data[..4] + data[4..];
    case Event(code, parameters) => assert data == data[..3] + data[3..];
    case Acl(a) =>
      HeaderRebuilt(Le16At(data, 1));
      Le16OfBytes(data[1], data[2]);
      Le16OfBytes(data[3], data[4]);
      assert data == data[..5] + data[5..];
  }

  // ---------------------------------------------------------------------------
  // Fragmentation
  // ---------------------------------------------------------------------------

  // The length its header declares a PDU to have, header included.
  function Declared(data: seq<byte>): nat
    requires |data| >= 2
  {
    Le16At(data, 0) + 4
  }

  predicate WholePdu(data: seq<byte>) { |data| >= 4 && |data| == Declared(data) }

  function Continuations(handle: u16, broadcast: byte, size: nat, data: seq<byte>): seq<AclPacket>
    requires size > 0
    decreases |data|
  {
    if data == [] then []
    else
      var n := Min(size, |data|);
      [AclPacket(handle, CONTINUATION, broadcast, data[..n])] + Continuations(handle, broadcast, size, data[n..])
  }

  // The packets a PDU is cut into; `first` marks the one that starts it.
  function Fragments(handle: u16, broadcast: byte, size: nat, pdu: seq<byte>, first: byte): (r: seq<AclPacket>)
    requires size > 0
    ensures r != []
  {
    var n := Min(size, |pdu|);
    [AclPacket(handle, first, broadcast, pdu[..n])] + Continuations(handle, broadcast, size, pdu[n..])
  }

  // `fragment_l2cap_pdu`: every packet passes the constructor's checks, or none is made.
  function FragmentPdu(handle: u16, broadcast: byte, size: nat, pdu: seq<byte>, flushable: bool)
    : Result<seq<AclPacket>, HciError>
  {
    if size == 0 || |pdu| < 4 then Failure(InvalidL2capPdu)
    else if Declared(pdu) != |pdu| then Failure(InvalidL2capPdu)
    else
      var first := NewAcl(handle, if flushable then 2 else 0, broadcast, pdu[..Min(size, |pdu|)]);
      if first.Failure? then Failure(first.error)
      else Success(Fragments(handle, broadcast, size, pdu, if flushable then 2 else 0))
  }

  /** Every packet made is one the controller accepts, and together they carry the PDU. */
  lemma FragmentsAreValid(handle: u16, broadcast: byte, size: nat, pdu: seq<byte>, flushable: bool)
    requires FragmentPdu(handle, broadcast, size, pdu, flushable).Success?
    ensures var ps := FragmentPdu(handle, broadcast, size, pdu, flushable).value;
            (forall i :: 0 <= i < |ps| ==> ValidAcl(ps[i]) && ps[i].handle == handle && |ps[i].data| <= size)
                && Carried(ps) == pdu
  {
    var n := Min(size, |pdu|);
    ContinuationsAreValid(handle, broadcast, size, pdu[n..], n);
    assert pdu == pdu[..n] + pdu[n..];
    var ps := Fragments(handle, broadcast, size, pdu, if flushable then 2 else 0);
    assert ps[1..] == Continuations(handle, broadcast, size, pdu[n..]);
  }

  function Carried(packets: seq<AclPacket>): seq<byte> {
    if packets == [] then [] else packets[0].data + Carried(packets[1..])
  }

  lemma {:induction false} ContinuationsAreValid(handle: u16, broadcast: byte, size: nat, data: seq<byte>, limit: nat)
    requires size > 0 && handle <= HANDLE_MAX && broadcast <= 3
    requires limit <= 0xFFFF && (limit == size || data == [])
    ensures var ps := Continuations(handle, broadcast, size, data);
            (forall i :: 0 <= i < |ps| ==> ValidAcl(ps[i]) && ps[i].handle == handle && |ps[i].data| <= size)
                && Carried(ps) == data
    decreases |data|
  {
    if data != [] {
      var n := Min(size, |data|);
      ContinuationsAreValid(handle, broadcast, size, data[n..], limit);
      assert data == data[..n] + data[n..];
      var ps := Continuations(handle, broadcast, size, data);
      assert ps[1..] == Continuations(handle, broadcast, size, data[n..]);
    }
  }

  // ---------------------------------------------------------------------------
  // Reassembly
  // ---------------------------------------------------------------------------

  datatype Pending = Pending(expected: nat, data: seq<byte>)

  type Reply = Result<Option<seq<byte>>, HciError>

  // Feeding one handle's packet to what is pending for that handle.
  function FeedOne(pending: Option<Pending>, p: AclPacket): (Option<Pending>, Reply) {
    if p.boundary == CONTINUATION then
      if pending.None? then (None, Failure(UnexpectedContinuation(p.handle)))
      else
        var data, expected := pending.value.data + p.data, pending.value.expected;
        if |data| > expected then (None, Failure(ContinuationOverflow(expected, |data|)))
        else if |data| == expected then (None, Success(Some(data)))
        else (Some(Pending(expected, data)), Success(None))
    else if |p.data| < 4 then (pending, Failure(InvalidL2capPdu))
    else if |p.data| > Declared(p.data) then (pending, Failure(ContinuationOverflow(Declared(p.data), |p.data|)))
    else if |p.data| == Declared(p.data) then (None, Success(Some(p.data)))
    else (Some(Pending(Declared(p.data), p.data)), Success(None))
  }

  function PendingAt(pending: map<u16, Pending>, handle: u16): Option<Pending> {
    if handle in pending then Some(pending[handle]) else None
  }

  function Store(pending: map<u16, Pending>, handle: u16, p: Option<Pending>): map<u16, Pending> {
    if p.None? then pending - {handle} else pending[handle := p.value]
  }

  function FeedPacket(pending: map<u16, Pending>, p: AclPacket): (map<u16, Pending>, Reply) {
    var (after, reply) := FeedOne(PendingAt(pending, p.handle), p);
    (Store(pending, p.handle, after), reply)
  }

  predicate ValidPending(p: Pending) { 4 <= |p.data| < p.expected && p.expected == Declared(p.data) }

  // Every pending entry is a proper beginning of a PDU, header included.
  predicate ValidAssembler(pending: map<u16, Pending>) {
    forall handle <- pending :: ValidPending(pending[handle])
  }

  /** Whatever packets arrive: pending entries stay proper beginnings, and only whole PDUs come out. */
  lemma FeedIsSound(pending: map<u16, Pending>, p: AclPacket)
    requires ValidAssembler(pending)
    ensures var (after, reply) := FeedPacket(pending, p);
            && ValidAssembler(after)
            && (reply.Success? && reply.value.Some? ==> WholePdu(reply.value.value) && p.handle !in after)
  {
  }

  class AclAssembler {
    var pending: map<u16, Pending>

    constructor ()
      ensures pending == map[] && ValidAssembler(pending)
    {
      pending := map[];
    }

    method Feed(p: AclPacket) returns (reply: Reply)
      requires ValidAssembler(pending)
      modifies this
      ensures ValidAssembler(pending)
      ensures (pending, reply) == FeedPacket(old(pending), p)
    {
      FeedIsSound(pending, p);
      if p.boundary == CONTINUATION {
        if p.handle !in pending {
          assert pending == pending - {p.handle};
          return Failure(UnexpectedContinuation(p.handle));
        }
        var entry := pending[p.handle];
        entry := entry.(data := entry.data + p.data);
        if |entry.data| > entry.expected {
          pending := pending - {p.handle};
          return Failure(ContinuationOverflow(entry.expected, |entry.data|));
        }
        if |entry.data| == entry.expected {
          pending := pending - {p.handle};
          return Success(Some(entry.data));
        }
        pending := pending[p.handle := entry];
        return Success(None);
      }
      assert Store(pending, p.handle, PendingAt(pending, p.handle)) == pending;
      if |p.data| < 4 { return Failure(InvalidL2capPdu); }
      var expected := Declared(p.data);
      if |p.data| > expected { return Failure(ContinuationOverflow(expected, |p.data|)); }
      if |p.data| == expected {
        pending := pending - {p.handle};
        return Success(Some(p.data));
      }
      pending := pending[p.handle := Pending(expected, p.data)];
      reply := Success(None);
    }

    method ClearHandle(handle: u16)
      requires ValidAssembler(pending)
      modifies this
      ensures ValidAssembler(pending) && pending == old(pending) - {handle}
    {
      pending := pending - {handle};
    }
  }

  // ---------------------------------------------------------------------------
  // Interleaved streams
  // ---------------------------------------------------------------------------

  // A reply of the assembler, with the handle of the packet that caused it.
  datatype Output = Output(handle: u16, reply: Reply)

  function FeedAll(pending: map<u16, Pending>, packets: seq<AclPacket>): (map<u16, Pending>, seq<Output>)
    decreases |packets|
  {
    if packets == [] then (pending, [])
    else
      var (after, reply) := FeedPacket(pending, packets[0]);
      var (last, outputs) := FeedAll(after, packets[1..]);
      (last, [Output(packets[0].handle, reply)] + outputs)
  }

  function FeedHandle(pending: Option<Pending>, packets: seq<AclPacket>): (Option<Pending>, seq<Reply>)
    decreases |packets|
  {
    if packets == [] then (pending, [])
    else
      var (after, reply) := FeedOne(pending, packets[0]);
      var (last, replies) := FeedHandle(after, packets[1..]);
      (last, [reply] + replies)
  }

  function OfHandle(packets: seq<AclPacket>, handle: u16): seq<AclPacket> {
    if packets == [] then []
    else (if packets[0].handle == handle then [packets[0]] else []) + OfHandle(packets[1..], handle)
  }

  function RepliesTo(outputs: seq<Output>, handle: u16): seq<Reply> {
    if outputs == [] then []
    else (if outputs[0].handle == handle then [outputs[0].reply] else []) + RepliesTo(outputs[1..], handle)
  }

  lemma FeedKeepsOthers(pending: map<u16, Pending>, p: AclPacket, handle: u16)
    ensures PendingAt(FeedPacket(pending, p).0, handle)
         == if p.handle == handle then FeedOne(PendingAt(pending, handle), p).0 else PendingAt(pending, handle)
  {
  }

  /** Handles do not interfere: each sees the assembler it would see alone. */
  lemma {:induction false} HandlesAreIndependent(pending: map<u16, Pending>, packets: seq<AclPacket>, handle: u16)
    ensures var (last, outputs) := FeedAll(pending, packets);
            (PendingAt(last, handle), RepliesTo(outputs, handle))
                == FeedHandle(PendingAt(pending, handle), OfHandle(packets, handle))
    decreases |packets|
  {
    if packets != [] {
      hide FeedOne, FeedPacket, Store, PendingAt;
      var (after, reply) := FeedPacket(pending, packets[0]);
      HandlesAreIndependent(after, packets[1..], handle);
      var (last, outputs) := FeedAll(pending, packets);
      assert outputs[1..] == FeedAll(after, packets[1..]).1;
      FeedKeepsOthers(pending, packets[0], handle);
      var mine := OfHandle(packets, handle);
      if packets[0].handle == handle {
        assert mine[0] == packets[0] && mine[1..] == OfHandle(packets[1..], handle);
      } else {
        assert mine == OfHandle(packets[1..], handle);
        assert RepliesTo(outputs, handle) == RepliesTo(outputs[1..], handle);
      }
    }
  }

  // A PDU as its sender cuts it: the packet size and the flag of the first packet may differ from PDU to PDU.
  datatype Cut = Cut(pdu: seq<byte>, size: nat, first: byte)

  predicate ValidCuts(cuts: seq<Cut>) { forall i :: 0 <= i < |cuts| ==> ValidCut(cuts[i]) }

  predicate ValidCut(c: Cut) { WholePdu(c.pdu) && c.size >= 4 && c.first != CONTINUATION }

  // A handle's packets for a sequence of PDUs.
  function Stream(handle: u16, broadcast: byte, cuts: seq<Cut>): seq<AclPacket>
    requires ValidCuts(cuts)
  {
    if cuts == [] then []
    else
      assert ValidCut(cuts[0]);
      Fragments(handle, broadcast, cuts[0].size, cuts[0].pdu, cuts[0].first) + Stream(handle, broadcast, cuts[1..])
  }

  // The PDUs among the replies, and that none of them is an error.
  function Emitted(replies: seq<Reply>): seq<seq<byte>> {
    if replies == [] then []
    else
      (if replies[0].Success? && replies[0].value.Some? then [replies[0].value.value] else [])
      + Emitted(replies[1..])
  }

  predicate NoErrors(replies: seq<Reply>) { forall i :: 0 <= i < |replies| ==> replies[i].Success? }

  function Pdus(cuts: seq<Cut>): seq<seq<byte>> { seq(|cuts|, i requires 0 <= i < |cuts| => cuts[i].pdu) }

  lemma {:induction false} FeedHandleAppend(pending: Option<Pending>, a: seq<AclPacket>, b: seq<AclPacket>)
    ensures var (mid, first) := FeedHandle(pending, a);
            var (last, second) := FeedHandle(mid, b);
            FeedHandle(pending, a + b) == (last, first + second)
    decreases |a|
  {
    if a == [] {
      assert a + b == b;
      var second := FeedHandle(pending, b).1;
      assert [] + second == second;
    } else {
      var whole := a + b;
      assert whole[0] == a[0] && whole[1..] == a[1..] + b;
      var (after, reply) := FeedOne(pending, a[0]);
      FeedHandleAppend(after, a[1..], b);
      var (mid, first) := FeedHandle(after, a[1..]);
      var (last, second) := FeedHandle(mid, b);
      assert [reply] + (first + second) == [reply] + first + second;
    }
  }

  lemma {:induction false} EmittedAppend(a: seq<Reply>, b: seq<Reply>)
    ensures Emitted(a + b) == Emitted(a) + Emitted(b)
  {
    if a == [] {
      assert a + b == b;
    } else {
      var whole := a + b;
      assert whole[0] == a[0] && whole[1..] == a[1..] + b;
      EmittedAppend(a[1..], b);
      var head := if a[0].Success? && a[0].value.Some? then [a[0].value.value] else [];
      assert head + (Emitted(a[1..]) + Emitted(b)) == head + Emitted(a[1..]) + Emitted(b);
    }
  }

  /** The continuations of a PDU complete what is pending of it. */
  lemma {:induction false} ContinuationsComplete(handle: u16, broadcast: byte, size: nat, data: seq<byte>,
                                                 pending: Pending)
    requires size > 0 && data != [] && pending.expected == |pending.data| + |data|
    ensures var (last, replies) := FeedHandle(Some(pending), Continuations(handle, broadcast, size, data));
            last.None? && NoErrors(replies) && Emitted(replies) == [pending.data + data]
    decreases |data|
  {
    var n := Min(size, |data|);
    var packets := Continuations(handle, broadcast, size, data);
    assert packets[1..] == Continuations(handle, broadcast, size, data[n..]);
    var (after, reply) := FeedOne(Some(pending), packets[0]);
    var (last, rest) := FeedHandle(after, packets[1..]);
    var replies := FeedHandle(Some(pending), packets).1;
    assert replies[1..] == rest;
    if n == |data| {
      assert data[..n] == data && packets[1..] == [];
      assert rest == [] && Emitted(rest) == [];
    } else {
      ContinuationsComplete(handle, broadcast, size, data[n..], after.value);
      assert pending.data + data[..n] + data[n..] == pending.data + data;
    }
  }

  /** One PDU's packets leave nothing pending and give the PDU back. */
  lemma FragmentsReassemble(handle: u16, broadcast: byte, c: Cut)
    requires ValidCut(c)
    ensures var (last, replies) := FeedHandle(None, Fragments(handle, broadcast, c.size, c.pdu, c.first));
            last.None? && NoErrors(replies) && Emitted(replies) == [c.pdu]
  {
    var n := Min(c.size, |c.pdu|);
    var packets := Fragments(handle, broadcast, c.size, c.pdu, c.first);
    assert packets[1..] == Continuations(handle, broadcast, c.size, c.pdu[n..]);
    assert Declared(c.pdu[..n]) == Declared(c.pdu);
    var (after, reply) := FeedOne(None, packets[0]);
    var (last, rest) := FeedHandle(after, packets[1..]);
    var replies := FeedHandle(None, packets).1;
    assert replies[1..] == rest;
    if n == |c.pdu| {
      assert c.pdu[..n] == c.pdu && packets[1..] == [] && rest == [] && Emitted(rest) == [];
    } else {
      ContinuationsComplete(handle, broadcast, c.size, c.pdu[n..], after.value);
      assert c.pdu[..n] + c.pdu[n..] == c.pdu;
    }
  }

  /** Packets of fewer than four bytes cannot be reassembled: the first one is too short to hold the PDU's header. */
  lemma ReassemblesExactlyFromFour(handle: u16, broadcast: byte, pdu: seq<byte>, size: nat, first: byte)
    requires WholePdu(pdu) && size > 0 && first != CONTINUATION
    ensures var (last, replies) := FeedHandle(None, Fragments(handle, broadcast, size, pdu, first));
            (last.None? && NoErrors(replies) && Emitted(replies) == [pdu]) <==> size >= 4
  {
    if size >= 4 {
      FragmentsReassemble(handle, broadcast, Cut(pdu, size, first));
    } else {
      var packets := Fragments(handle, broadcast, size, pdu, first);
      assert |packets[0].data| < 4 && FeedHandle(None, packets).1[0].Failure?;
    }
  }

  lemma {:induction false} StreamReassembles(handle: u16, broadcast: byte, cuts: seq<Cut>)
    requires ValidCuts(cuts)
    ensures var (last, replies) := FeedHandle(None, Stream(handle, broadcast, cuts));
            last.None? && NoErrors(replies) && Emitted(replies) == Pdus(cuts)
    decreases |cuts|
  {
    if cuts != [] {
      hide Fragments, FeedHandle, FeedOne;
      var c := cuts[0];
      var a, b := Fragments(handle, broadcast, c.size, c.pdu, c.first), Stream(handle, broadcast, cuts[1..]);
      FragmentsReassemble(handle, broadcast, c);
      StreamReassembles(handle, broadcast, cuts[1..]);
      FeedHandleAppend(None, a, b);
      EmittedAppend(FeedHandle(None, a).1, FeedHandle(None, b).1);
      assert Pdus(cuts) == [c.pdu] + Pdus(cuts[1..]);
    }
  }

  /**
    * Any interleaving of any number of handles: a handle whose packets are those of its
    * PDUs, in order, gets exactly those PDUs back, in order, without an error.
    */
  lemma InterleavedRoundTrip(packets: seq<AclPacket>, handle: u16, broadcast: byte, cuts: seq<Cut>)
    requires ValidCuts(cuts)
    requires OfHandle(packets, handle) == Stream(handle, broadcast, cuts)
    ensures var (last, outputs) := FeedAll(map[], packets);
            var replies := RepliesTo(outputs, handle);
            handle !in last && NoErrors(replies) && Emitted(replies) == Pdus(cuts)
  {
    HandlesAreIndependent(map[], packets, handle);
    StreamReassembles(handle, broadcast, cuts);
  }
}
