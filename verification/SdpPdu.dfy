/** The seven SDP protocol data units (sections 4.4 to 4.7 of Vol 3 Part B of the Bluetooth Core Specification). */
module SdpPdu {
  import opened Bytes
  import opened SdpElement

  datatype Pdu =
    | ErrorResponse(transaction: u16, code: u16)
    | SearchRequest(transaction: u16, pattern: Element, maximum: u16, continuation: seq<byte>)
    | SearchResponse(transaction: u16, total: u16, handles: seq<u32>, continuation: seq<byte>)
    | AttributeRequest(transaction: u16, handle: u32, maximum: u16, ids: Element, continuation: seq<byte>)
    | AttributeResponse(transaction: u16, list: seq<byte>, continuation: seq<byte>)
    | SearchAttributeRequest(transaction: u16, pattern: Element, maximum: u16, ids: Element, continuation: seq<byte>)
    | SearchAttributeResponse(transaction: u16, list: seq<byte>, continuation: seq<byte>)

  function Id(p: Pdu): byte {
    match p
    case ErrorResponse(_, _) => 1
    case SearchRequest(_, _, _, _) => 2
    case SearchResponse(_, _, _, _) => 3
    case AttributeRequest(_, _, _, _, _) => 4
    case AttributeResponse(_, _, _) => 5
    case SearchAttributeRequest(_, _, _, _, _) => 6
    case SearchAttributeResponse(_, _, _) => 7
  }

  function Handles(handles: seq<u32>): (r: seq<byte>)
    ensures |r| == 4 * |handles|
  {
    if handles == [] then [] else ToBe(handles[0], 4) + Handles(handles[1..])
  }

  // A parameter block: an element that could not be encoded fails it.
  function Then(a: Result<seq<byte>, SdpError>, more: seq<byte>): Result<seq<byte>, SdpError> {
    if a.Failure? then a else Success(a.value + more)
  }

  function Parameters(p: Pdu): Result<seq<byte>, SdpError> {
    match p
    case ErrorResponse(_, code) => Success(Le16(code))
    case SearchRequest(_, pattern, maximum, continuation) => Then(Encode(pattern), ToBe(maximum, 2) + continuation)
    case SearchResponse(_, total, handles, continuation) =>
      Success(ToBe(total, 2) + ToBe(|handles| % 0x1_0000, 2) + Handles(handles) + continuation)
    case AttributeRequest(_, handle, maximum, ids, continuation) =>
      var list := Encode(ids);
      if list.Failure? then list else Success(ToBe(handle, 4) + ToBe(maximum, 2) + list.value + continuation)
    case AttributeResponse(_, list, continuation) => Success(ToBe(|list| % 0x1_0000, 2) + list + continuation)
    case SearchAttributeRequest(_, pattern, maximum, ids, continuation) =>
      var first, list := Encode(pattern), Encode(ids);
      if first.Failure? then first else if list.Failure? then list
      else Success(first.value + ToBe(maximum, 2) + list.value + continuation)
    case SearchAttributeResponse(_, list, continuation) => Success(ToBe(|list| % 0x1_0000, 2) + list + continuation)
  }

  function EncodePdu(p: Pdu): Result<seq<byte>, SdpError> {
    var parameters := Parameters(p);
    if parameters.Failure? then parameters
    else Success([Id(p)] + ToBe(p.transaction, 2) + ToBe(|parameters.value| % 0x1_0000, 2) + parameters.value)
  }

  // ---------------------------------------------------------------------------
  // Reading
  // ---------------------------------------------------------------------------

  // A cursor over the parameter block: what was read, and where reading goes on.
  type Reading<T> = Option<(T, nat)>

  function ReadInt(data: seq<byte>, pos: nat, n: nat): (r: Reading<nat>)
    ensures r.Some? ==> r.value.0 < Pow256(n) && r.value.1 <= |data|
  {
    if pos + n > |data| then None
    else
      FromBeBound(data[pos..pos + n]);
      Some((FromBe(data[pos..pos + n]), pos + n))
  }

  function ReadElement(data: seq<byte>, pos: nat): (r: Reading<Element>)
    ensures r.Some? ==> r.value.1 <= |data|
  {
    var r := ParseAt(data, pos, 0);
    if r.Failure? then None else Some((r.value.1, r.value.0))
  }

  function ReadHandles(data: seq<byte>, pos: nat, count: nat): (r: Reading<seq<u32>>)
    requires pos <= |data|
    ensures r.Some? ==> r.value.1 <= |data|
    decreases count
  {
    if count == 0 then Some(([], pos))
    else
      var first := ReadInt(data, pos, 4);
      if first.None? then None
      else
        Pow256Values();
        var rest := ReadHandles(data, first.value.1, count - 1);
        if rest.None? then None else Some(([first.value.0] + rest.value.0, rest.value.1))
  }

  // `[length][bytes]`, then the continuation state.
  function ReadBlock(data: seq<byte>): Option<(seq<byte>, seq<byte>)> {
    var length := ReadInt(data, 0, 2);
    if length.None? || length.value.1 + length.value.0 > |data| then None
    else
      var end := length.value.1 + length.value.0;
      Some((data[length.value.1..end], data[end..]))
  }

  function ReadPdu(id: byte, transaction: u16, data: seq<byte>): Option<Pdu> {
    Pow256Values();
    if id == 1 then
      if |data| < 2 then None else Some(ErrorResponse(transaction, Le16At(data, 0)))
    else if id == 2 then
      var pattern := ReadElement(data, 0);
      if pattern.None? then None
      else
        var maximum := ReadInt(data, pattern.value.1, 2);
        if maximum.None? then None
        else Some(SearchRequest(transaction, pattern.value.0, maximum.value.0, data[maximum.value.1..]))
    else if id == 3 then
      var total, count := ReadInt(data, 0, 2), ReadInt(data, 2, 2);
      if total.None? || count.None? then None
      else
        var handles := ReadHandles(data, 4, count.value.0);
        if handles.None? then None
        else Some(SearchResponse(transaction, total.value.0, handles.value.0, data[handles.value.1..]))
    else if id == 4 then
      var handle, maximum := ReadInt(data, 0, 4), ReadInt(data, 4, 2);
      if handle.None? || maximum.None? then None
      else
        var ids := ReadElement(data, 6);
        if ids.None? then None
        else Some(AttributeRequest(transaction, handle.value.0, maximum.value.0, ids.value.0, data[ids.value.1..]))
    else if id == 5 then
      var block := ReadBlock(data);
      if block.None? then None else Some(AttributeResponse(transaction, block.value.0, block.value.1))
    else if id == 6 then
      var pattern := ReadElement(data, 0);
      if pattern.None? then None
      else
        var maximum := ReadInt(data, pattern.value.1, 2);
        if maximum.None? then None
        else
          var ids := ReadElement(data, maximum.value.1);
          if ids.None? then None
          else Some(SearchAttributeRequest(transaction, pattern.value.0, maximum.value.0, ids.value.0,
                                           data[ids.value.1..]))
    else if id == 7 then
      var block := ReadBlock(data);
      if block.None? then None else Some(SearchAttributeResponse(transaction, block.value.0, block.value.1))
    else None
  }

  function DecodePdu(data: seq<byte>): Result<Pdu, SdpError> {
    if |data| < 5 then Failure(InvalidPacket)
    else
      var length := FromBe16(data[3], data[4]) as nat;
      if 5 + length > |data| then Failure(InvalidPacket)
      else
        var p := ReadPdu(data[0], FromBe16(data[1], data[2]), data[5..5 + length]);
        if p.None? then Failure(InvalidPacket) else Success(p.value)
  }

  // ---------------------------------------------------------------------------
  // Round trip
  // ---------------------------------------------------------------------------

  predicate Readable(e: Element) { ValidText(e) && Depth(e) <= MAX_NESTING }

  // Its elements nest no deeper than the parser allows.
  predicate ReadableParts(p: Pdu) {
    (p.SearchRequest? || p.SearchAttributeRequest? ==> Readable(p.pattern))
    && (p.AttributeRequest? || p.SearchAttributeRequest? ==> Readable(p.ids))
  }

  lemma IntReads(data: seq<byte>, pos: nat, value: nat, n: nat)
    requires value < Pow256(n) && StandsAt(data, pos, ToBe(value, n))
    ensures ReadInt(data, pos, n) == Some((value, pos + n))
  {
    BeRoundTrip(value, n);
  }

  lemma ElementReads(data: seq<byte>, pos: nat, e: Element)
    requires Readable(e) && Encode(e).Success? && StandsAt(data, pos, Encode(e).value)
    ensures ReadElement(data, pos) == Some((e, pos + |Encode(e).value|))
  {
    RoundTripInContext(e, data, pos, 0);
  }

  lemma {:induction false} HandlesRead(data: seq<byte>, pos: nat, handles: seq<u32>)
    requires StandsAt(data, pos, Handles(handles))
    ensures ReadHandles(data, pos, |handles|) == Some((handles, pos + 4 * |handles|))
    decreases |handles|
  {
    if handles != [] {
      StandsApart(data, pos, ToBe(handles[0], 4), Handles(handles[1..]));
      Pow256Values();
      IntReads(data, pos, handles[0], 4);
      HandlesRead(data, pos + 4, handles[1..]);
      assert [handles[0]] + handles[1..] == handles;
    }
  }

  lemma RestReads(data: seq<byte>, pos: nat, rest: seq<byte>)
    requires StandsAt(data, pos, rest) && pos + |rest| == |data|
    ensures data[pos..] == rest
  {
  }

  lemma SearchRequestReads(p: Pdu)
    requires p.SearchRequest? && Parameters(p).Success? && ReadableParts(p)
    ensures ReadPdu(2, p.transaction, Parameters(p).value) == Some(p)
  {
    hide ReadInt, ReadElement, ToBe, Encode, Readable, StandsAt;
    var a, b, c := Encode(p.pattern).value, ToBe(p.maximum, 2), p.continuation;
    var data := Parameters(p).value;
    Whole(data);
    StandsApart(data, 0, a, b + c);
    StandsApart(data, |a|, b, c);
    Pow256Values();
    ElementReads(data, 0, p.pattern);
    IntReads(data, |a|, p.maximum, 2);
    RestReads(data, |a| + 2, c);
  }

  lemma Whole(data: seq<byte>)
    ensures StandsAt(data, 0, data)
  {
  }

  lemma SearchResponseReads(p: Pdu)
    requires p.SearchResponse? && |p.handles| <= 0xFFFF
    ensures ReadPdu(3, p.transaction, Parameters(p).value) == Some(p)
  {
    hide ReadInt, ReadHandles, ToBe, StandsAt, Handles;
    var a, b, c, d := ToBe(p.total, 2), ToBe(|p.handles|, 2), Handles(p.handles), p.continuation;
    var data := Parameters(p).value;
    Whole(data);
    StandsApart(data, 0, a + b + c, d);
    StandsApart(data, 0, a + b, c);
    StandsApart(data, 0, a, b);
    Pow256Values();
    IntReads(data, 0, p.total, 2);
    IntReads(data, 2, |p.handles|, 2);
    HandlesRead(data, 4, p.handles);
    RestReads(data, 4 + |c|, d);
  }

  lemma AttributeRequestReads(p: Pdu)
    requires p.AttributeRequest? && Parameters(p).Success? && ReadableParts(p)
    ensures ReadPdu(4, p.transaction, Parameters(p).value) == Some(p)
  {
    hide ReadInt, ReadElement, ToBe, Encode, Readable, StandsAt;
    var a, b, c, d := ToBe(p.handle, 4), ToBe(p.maximum, 2), Encode(p.ids).value, p.continuation;
    var data := Parameters(p).value;
    Whole(data);
    StandsApart(data, 0, a + b + c, d);
    StandsApart(data, 0, a + b, c);
    StandsApart(data, 0, a, b);
    Pow256Values();
    IntReads(data, 0, p.handle, 4);
    IntReads(data, 4, p.maximum, 2);
    ElementReads(data, 6, p.ids);
    RestReads(data, 6 + |c|, d);
  }

  lemma SearchAttributeRequestReads(p: Pdu)
    requires p.SearchAttributeRequest? && Parameters(p).Success? && ReadableParts(p)
    ensures ReadPdu(6, p.transaction, Parameters(p).value) == Some(p)
  {
    hide ReadInt, ReadElement, ToBe, Encode, Readable, StandsAt;
    var a, b, c, d := Encode(p.pattern).value, ToBe(p.maximum, 2), Encode(p.ids).value, p.continuation;
    var data := Parameters(p).value;
    Whole(data);
    StandsApart(data, 0, a + b + c, d);
    StandsApart(data, 0, a + b, c);
    StandsApart(data, 0, a, b);
    Pow256Values();
    ElementReads(data, 0, p.pattern);
    IntReads(data, |a|, p.maximum, 2);
    ElementReads(data, |a| + 2, p.ids);
    RestReads(data, |a| + 2 + |c|, d);
  }

  lemma BlockReads(list: seq<byte>, continuation: seq<byte>)
    requires |list| <= 0xFFFF
    ensures ReadBlock(ToBe(|list|, 2) + list + continuation) == Some((list, continuation))
  {
    hide ToBe, StandsAt;
    var data := ToBe(|list|, 2) + list + continuation;
    Whole(data);
    StandsApart(data, 0, ToBe(|list|, 2) + list, continuation);
    StandsApart(data, 0, ToBe(|list|, 2), list);
    Pow256Values();
    IntReads(data, 0, |list|, 2);
    assert data[2..2 + |list|] == list;
    assert data[2 + |list|..] == continuation;
  }

  lemma ParametersRead(p: Pdu)
    requires Parameters(p).Success? && |Parameters(p).value| <= 0xFFFF && ReadableParts(p)
    ensures ReadPdu(Id(p), p.transaction, Parameters(p).value) == Some(p)
  {
    hide ReadBlock, ReadInt, ReadElement, ReadHandles, Encode, Readable;
    match p
    case ErrorResponse(_, code) => assert Le16At(Le16(code), 0) == code;
    case SearchRequest(_, _, _, _) => SearchRequestReads(p);
    case SearchResponse(_, _, _, _) => SearchResponseReads(p);
    case AttributeRequest(_, _, _, _, _) => AttributeRequestReads(p);
    case AttributeResponse(_, list, continuation) => BlockReads(list, continuation);
    case SearchAttributeRequest(_, _, _, _, _) => SearchAttributeRequestReads(p);
    case SearchAttributeResponse(_, list, continuation) => BlockReads(list, continuation);
  }

  // ---------------------------------------------------------------------------
  // What does not read back
  // ---------------------------------------------------------------------------

  /** An element in the first `m` bytes of a block is read to its own end, or not at all. */
  lemma ElementEnds(whole: seq<byte>, m: nat, pos: nat, e: Element)
    requires ValidText(e) && Encode(e).Success? && StandsAt(whole, pos, Encode(e).value) && m <= |whole|
    ensures var r := ReadElement(whole[..m], pos);
            r.Some? ==> r.value == (e, pos + |Encode(e).value|) && Depth(e) <= MAX_NESTING
  {
    hide ParseAt, Encode, ValidText, Depth;
    var end := pos + |Encode(e).value|;
    if end <= m {
      assert whole[..m][pos..end] == whole[pos..end];
      RoundTripInContext(e, whole[..m], pos, 0);
    } else if pos <= m {
      CutElementFails(e, whole, pos, m, 0);
    } else {
      BeyondFails(whole[..m], pos);
    }
  }

  lemma BeyondFails(data: seq<byte>, pos: nat)
    requires |data| < pos
    ensures ParseAt(data, pos, 0).Failure?
  {
  }

  // Its elements are text the parser accepts; deeper ones than it allows are not.
  predicate TextParts(p: Pdu) {
    (p.SearchRequest? || p.SearchAttributeRequest? ==> ValidText(p.pattern))
    && (p.AttributeRequest? || p.SearchAttributeRequest? ==> ValidText(p.ids))
  }

  predicate ShallowParts(p: Pdu) {
    (p.SearchRequest? || p.SearchAttributeRequest? ==> Depth(p.pattern) <= MAX_NESTING)
    && (p.AttributeRequest? || p.SearchAttributeRequest? ==> Depth(p.ids) <= MAX_NESTING)
  }

  lemma {:induction false} HandlesEnd(data: seq<byte>, pos: nat, count: nat)
    requires pos <= |data|
    ensures var r := ReadHandles(data, pos, count);
            r.Some? ==> |r.value.0| == count && r.value.1 == pos + 4 * count
    decreases count
  {
    if count > 0 {
      var first := ReadInt(data, pos, 4);
      if first.Some? { HandlesEnd(data, first.value.1, count - 1); }
    }
  }

  lemma SearchRequestEnds(p: Pdu, m: nat)
    requires p.SearchRequest? && Parameters(p).Success? && TextParts(p) && m <= |Parameters(p).value|
    ensures ReadPdu(2, p.transaction, Parameters(p).value[..m]) == Some(p) ==>
            m == |Parameters(p).value| && ShallowParts(p)
  {
    hide ReadElement, ToBe, Encode, ValidText, StandsAt, Depth, FromBe;
    var whole := Parameters(p).value;
    Whole(whole);
    StandsApart(whole, 0, Encode(p.pattern).value, ToBe(p.maximum, 2) + p.continuation);
    ElementEnds(whole, m, 0, p.pattern);
  }

  lemma AttributeRequestEnds(p: Pdu, m: nat)
    requires p.AttributeRequest? && Parameters(p).Success? && TextParts(p) && m <= |Parameters(p).value|
    ensures ReadPdu(4, p.transaction, Parameters(p).value[..m]) == Some(p) ==>
            m == |Parameters(p).value| && ShallowParts(p)
  {
    hide ReadElement, ToBe, Encode, ValidText, StandsAt, Depth, FromBe;
    var a, b, c, d := ToBe(p.handle, 4), ToBe(p.maximum, 2), Encode(p.ids).value, p.continuation;
    var whole := Parameters(p).value;
    Whole(whole);
    StandsApart(whole, 0, a + b + c, d);
    StandsApart(whole, 0, a + b, c);
    ElementEnds(whole, m, 6, p.ids);
  }

  lemma SearchAttributeRequestEnds(p: Pdu, m: nat)
    requires p.SearchAttributeRequest? && Parameters(p).Success? && TextParts(p) && m <= |Parameters(p).value|
    ensures ReadPdu(6, p.transaction, Parameters(p).value[..m]) == Some(p) ==>
            m == |Parameters(p).value| && ShallowParts(p)
  {
    hide ReadElement, ToBe, Encode, ValidText, StandsAt, Depth, FromBe;
    var a, b, c, d := Encode(p.pattern).value, ToBe(p.maximum, 2), Encode(p.ids).value, p.continuation;
    var whole := Parameters(p).value;
    Whole(whole);
    StandsApart(whole, 0, a + b + c, d);
    StandsApart(whole, 0, a + b, c);
    StandsApart(whole, 0, a, b);
    ElementEnds(whole, m, 0, p.pattern);
    ElementEnds(whole, m, |a| + 2, p.ids);
  }

  lemma SearchResponseEnds(p: Pdu, m: nat)
    requires p.SearchResponse? && m <= |Parameters(p).value|
    ensures ReadPdu(3, p.transaction, Parameters(p).value[..m]) == Some(p) ==> m == |Parameters(p).value|
  {
    hide ToBe, FromBe, ReadHandles, Handles;
    var data := Parameters(p).value[..m];
    if m >= 4 {
      var count := ReadInt(data, 2, 2);
      if count.Some? { HandlesEnd(data, 4, count.value.0); }
    }
  }

  /** A block cut short is never read as the PDU it was written for, nor is one whose elements nest too deep. */
  lemma ParametersEnd(p: Pdu, m: nat)
    requires Parameters(p).Success? && TextParts(p) && m <= |Parameters(p).value| && (p.ErrorResponse? ==> m == 2)
    ensures ReadPdu(Id(p), p.transaction, Parameters(p).value[..m]) == Some(p) ==>
            m == |Parameters(p).value| && ShallowParts(p)
  {
    hide ReadInt, ReadElement, ReadHandles, Encode, ToBe, Depth, ValidText;
    match p
    case ErrorResponse(_, code) =>
    case SearchRequest(_, _, _, _) => SearchRequestEnds(p, m);
    case SearchResponse(_, _, _, _) => SearchResponseEnds(p, m);
    case AttributeRequest(_, _, _, _, _) => AttributeRequestEnds(p, m);
    case AttributeResponse(_, list, continuation) => BlockEnds(Parameters(p).value[..m]);
    case SearchAttributeRequest(_, _, _, _, _) => SearchAttributeRequestEnds(p, m);
    case SearchAttributeResponse(_, list, continuation) => BlockEnds(Parameters(p).value[..m]);
  }

  lemma IntEnds(data: seq<byte>, pos: nat, n: nat)
    ensures var r := ReadInt(data, pos, n);
            r.Some? ==> r.value.1 == pos + n <= |data|
  {
    hide FromBe, Pow256;
  }

  lemma BlockEnds(data: seq<byte>)
    ensures var r := ReadBlock(data);
            r.Some? ==> 2 + |r.value.0| + |r.value.1| == |data|
  {
    hide ReadInt;
    IntEnds(data, 0, 2);
  }

  /**
    * What is encoded decodes to itself if and only if the header can measure it and its elements nest no deeper than
    * allowed.
    */
  lemma PduRoundTrip(p: Pdu)
    requires TextParts(p) && Parameters(p).Success?
    ensures EncodePdu(p).Success?
    ensures DecodePdu(EncodePdu(p).value) == Success(p) <==> |Parameters(p).value| <= 0xFFFF && ShallowParts(p)
  {
    hide Parameters, ReadPdu, EncodePdu, DecodePdu, ValidText, Depth;
    var parameters := Parameters(p).value;
    var m := |parameters| % 0x1_0000;
    ErrorLength(p);
    DecodesPrefix(p);
    ParametersEnd(p, m);
    if |parameters| <= 0xFFFF {
      assert parameters[..m] == parameters;
      if ShallowParts(p) { ParametersRead(p); }
    }
  }

  lemma ErrorLength(p: Pdu)
    ensures p.ErrorResponse? ==> Parameters(p).Success? && |Parameters(p).value| == 2
  {
    hide Encode, ToBe;
  }

  lemma DecodesPrefix(p: Pdu)
    requires Parameters(p).Success?
    ensures EncodePdu(p).Success?
    ensures var m := |Parameters(p).value| % 0x1_0000;
            var r := ReadPdu(Id(p), p.transaction, Parameters(p).value[..m]);
            DecodePdu(EncodePdu(p).value) == if r.None? then Failure(InvalidPacket) else Success(r.value)
  {
    hide Parameters, ReadPdu, ToBe;
    var parameters, data := Parameters(p).value, EncodePdu(p).value;
    var m := |parameters| % 0x1_0000;
    TwoBytes(p.transaction);
    TwoBytes(m);
    assert data[5..5 + m] == parameters[..m];
  }

  lemma TwoBytes(n: u16)
    ensures ToBe(n, 2) == [n / 0x100, n % 0x100] && FromBe16(n / 0x100, n % 0x100) == n
  {
    assert n / 0x100 / 0x100 == 0 && ToBe(0, 0) == [];
    assert ToBe(n / 0x100, 1) == [] + [n / 0x100 % 0x100];
  }
}
