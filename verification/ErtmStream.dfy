/**
  * The stream of segments a sequence of SDUs becomes, and its reassembly: every
  * prefix of the stream reassembles, without error, to a prefix of the SDUs.
  */
module ErtmStream {
  import opened Bytes
  import opened Ertm

  predicate Encodable(sdus: seq<seq<byte>>) {
    forall i :: 0 <= i < |sdus| ==> |sdus[i]| < 0x1_0000
  }

  // All segments of `sdus`, in the order they are numbered.
  function Stream(sdus: seq<seq<byte>>, mps: nat): seq<Segment>
    requires 0 < mps && Encodable(sdus)
  {
    if sdus == [] then []
    else Stream(sdus[..|sdus| - 1], mps) + Segments(sdus[|sdus| - 1], mps)
  }

  // A receiver's reassembly state; `ok` records that no segment was out of place.
  datatype Assembly = Assembly(delivered: seq<seq<byte>>, input: seq<byte>, length: Option<nat>, ok: bool)

  const NOTHING := Assembly([], [], None, true)

  function Feed(a: Assembly, s: Segment): Assembly {
    var clean := a.input == [] && a.length.None?;
    match s.sar
    case Unsegmented =>
      Assembly(a.delivered + [s.payload], a.input, a.length, a.ok && clean)
    case Start =>
      if s.sduLength.None? then a.(ok := false)
      else Assembly(a.delivered, a.input + s.payload, Some(s.sduLength.value),
                    a.ok && clean && |a.input + s.payload| < s.sduLength.value)
    case Continuation =>
      Assembly(a.delivered, a.input + s.payload, a.length,
               a.ok && a.length.Some? && |a.input + s.payload| < a.length.value)
    case End =>
      Assembly(a.delivered + [a.input + s.payload], [], None,
               a.ok && a.length.Some? && |a.input + s.payload| == a.length.value)
  }

  function Assemble(a: Assembly, segments: seq<Segment>): Assembly
    decreases |segments|
  {
    if segments == [] then a else Assemble(Feed(a, segments[0]), segments[1..])
  }

  lemma {:induction false} AssembleConcat(a: Assembly, s: seq<Segment>, t: seq<Segment>)
    ensures Assemble(a, s + t) == Assemble(Assemble(a, s), t)
    decreases |s|
  {
    if s == [] {
      assert s + t == t;
    } else {
      assert (s + t)[1..] == s[1..] + t;
      AssembleConcat(Feed(a, s[0]), s[1..], t);
    }
  }

  /** Accepting the next segment of a stream is one more reassembly step. */
  lemma AssembleNext(stream: seq<Segment>, k: nat)
    requires k < |stream|
    ensures Assemble(NOTHING, stream[..k + 1]) == Feed(Assemble(NOTHING, stream[..k]), stream[k])
  {
    assert stream[..k + 1] == stream[..k] + [stream[k]];
    AssembleConcat(NOTHING, stream[..k], [stream[k]]);
    assert [stream[k]][1..] == [];
  }

  // The state in which `offset` bytes of a segmented SDU have been taken in.
  predicate Midway(a: Assembly, sdu: seq<byte>, offset: nat) {
    && offset <= |sdu| && a.ok
    && a.input == sdu[..offset]
    && a.length == (if offset == 0 then None else Some(|sdu|))
  }

  /** Any number of the remaining chunks of an SDU reassembles; all of them deliver it. */
  lemma {:induction false} ChunksReassemble(a: Assembly, sdu: seq<byte>, mps: nat, offset: nat, j: nat)
    requires 0 < mps < |sdu| < 0x1_0000 && offset < |sdu| && Midway(a, sdu, offset)
    requires j <= |SegmentsFrom(sdu, mps, offset)|
    ensures var r := Assemble(a, SegmentsFrom(sdu, mps, offset)[..j]);
            && r.ok
            && (j < |SegmentsFrom(sdu, mps, offset)| ==> r.delivered == a.delivered)
            && (j == |SegmentsFrom(sdu, mps, offset)| ==> r == Assembly(a.delivered + [sdu], [], None, true))
    decreases |sdu| - offset
  {
    var all := SegmentsFrom(sdu, mps, offset);
    if j > 0 {
      var next := Feed(a, all[0]);
      var end := ChunkEnd(sdu, mps, offset);
      assert sdu[..offset] + sdu[offset..end] == sdu[..end];
      assert all[..j][1..] == SegmentsFrom(sdu, mps, offset + mps)[..j - 1];
      if end == |sdu| {
        assert sdu[..end] == sdu;
        assert j == 1 && all[..1][1..] == [];
      } else {
        ChunksReassemble(next, sdu, mps, end, j - 1);
      }
    }
  }

  lemma SegmentsReassemble(a: Assembly, sdu: seq<byte>, mps: nat, j: nat)
    requires 0 < mps && |sdu| < 0x1_0000 && a.ok && a.input == [] && a.length.None?
    requires j <= |Segments(sdu, mps)|
    ensures var r := Assemble(a, Segments(sdu, mps)[..j]);
            && r.ok
            && (j < |Segments(sdu, mps)| ==> r.delivered == a.delivered)
            && (j == |Segments(sdu, mps)| ==> r == Assembly(a.delivered + [sdu], [], None, true))
  {
    if |sdu| <= mps {
      if j == 1 {
        assert Segments(sdu, mps)[..1] == [Segment(sdu, Unsegmented, None)];
        assert Segments(sdu, mps)[..1][1..] == [];
      }
    } else {
      ChunksReassemble(a, sdu, mps, 0, j);
    }
  }

  /** Segments of a further SDU, taken in after whole SDUs. */
  lemma FurtherReassembles(sdus: seq<seq<byte>>, before: seq<Segment>, sdu: seq<byte>, mps: nat, j: nat)
    requires 0 < mps && |sdu| < 0x1_0000 && j <= |Segments(sdu, mps)|
    requires Assemble(NOTHING, before) == Assembly(sdus, [], None, true)
    ensures Reassembled(Assemble(NOTHING, before + Segments(sdu, mps)[..j]), sdus + [sdu], j == |Segments(sdu, mps)|)
  {
    AssembleConcat(NOTHING, before, Segments(sdu, mps)[..j]);
    SegmentsReassemble(Assembly(sdus, [], None, true), sdu, mps, j);
  }

  predicate Reassembled(r: Assembly, sdus: seq<seq<byte>>, whole: bool) {
    r.ok && r.delivered <= sdus && (whole ==> r == Assembly(sdus, [], None, true))
  }

  /** Every prefix of a stream reassembles without error to a prefix of its SDUs, the whole to all of them. */
  lemma {:induction false} PrefixReassembles(sdus: seq<seq<byte>>, mps: nat, k: nat)
    requires 0 < mps && Encodable(sdus) && k <= |Stream(sdus, mps)|
    ensures Reassembled(Assemble(NOTHING, Stream(sdus, mps)[..k]), sdus, k == |Stream(sdus, mps)|)
  {
    if sdus != [] {
      var n := |sdus| - 1;
      var init := sdus[..n];
      var before := Stream(init, mps);
      assert sdus == init + [sdus[n]];
      if k < |before| {
        assert Stream(sdus, mps)[..k] == before[..k];
        PrefixReassembles(init, mps, k);
      } else {
        assert before[..|before|] == before;
        PrefixReassembles(init, mps, |before|);
        assert Stream(sdus, mps)[..k] == before + Segments(sdus[n], mps)[..k - |before|];
        FurtherReassembles(init, before, sdus[n], mps, k - |before|);
      }
    }
  }

  /** Submitting one more SDU extends the stream at its end. */
  lemma StreamExtends(sdus: seq<seq<byte>>, sdu: seq<byte>, mps: nat)
    requires 0 < mps && Encodable(sdus) && |sdu| < 0x1_0000
    ensures Stream(sdus + [sdu], mps) == Stream(sdus, mps) + Segments(sdu, mps)
  {
    assert (sdus + [sdu])[..|sdus|] == sdus;
  }

  // A length accompanies exactly the start of a segmented SDU, and nothing exceeds `limit`.
  predicate WellFormed(s: Segment, limit: nat) {
    && (s.sar == Start <==> s.sduLength.Some?)
    && |s.payload| <= limit
    && (s.sduLength.Some? ==> s.sduLength.value <= limit)
  }

  lemma {:induction false} ChunksWellFormed(sdu: seq<byte>, mps: nat, offset: nat)
    requires 0 < mps && |sdu| < 0x1_0000
    ensures forall s <- SegmentsFrom(sdu, mps, offset) :: WellFormed(s, |sdu|)
    decreases |sdu| - offset
  {
    if offset < |sdu| {
      ChunksWellFormed(sdu, mps, offset + mps);
    }
  }

  lemma {:induction false} StreamWellFormed(sdus: seq<seq<byte>>, mps: nat, limit: nat)
    requires 0 < mps && Encodable(sdus) && forall sdu <- sdus :: |sdu| <= limit
    ensures forall s <- Stream(sdus, mps) :: WellFormed(s, limit)
  {
    if sdus != [] {
      StreamWellFormed(sdus[..|sdus| - 1], mps, limit);
      ChunksWellFormed(sdus[|sdus| - 1], mps, 0);
    }
  }
}
