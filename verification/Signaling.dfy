/**
  * L2CAP PDUs, signaling frames, PSM fields and configuration options: their wire
  * forms, and when decoding gives back what was encoded.
  */
module Signaling {
  import opened Bytes

  datatype CodecError = NotEnoughData | TruncatedPsm | PsmTooLong | OddCidList | OptionTooLong | TruncatedOption

  // ---------------------------------------------------------------------------
  // Basic PDU
  // ---------------------------------------------------------------------------

  datatype Pdu = Pdu(cid: u16, payload: seq<byte>)

  // `to_bytes(false)`; the length field wraps at 16 bits.
  function EncodePdu(p: Pdu): seq<byte> {
    Le16(|p.payload| % 0x1_0000) + Le16(p.cid) + p.payload
  }

  function DecodePdu(data: seq<byte>): Result<Pdu, CodecError> {
    if |data| < 4 then Failure(NotEnoughData)
    else Success(Pdu(Le16At(data, 2), data[4..Min(4 + Le16At(data, 0), |data|)]))
  }

  /** A PDU survives the wire exactly when its payload fits the length field. */
  lemma PduRoundTrip(p: Pdu)
    ensures DecodePdu(EncodePdu(p)) == Success(p) <==> |p.payload| < 0x1_0000
  {
    var data := EncodePdu(p);
    assert data[4..] == p.payload;
    if |p.payload| < 0x1_0000 {
      assert data[4..4 + |p.payload|] == p.payload;
    }
  }

  // ---------------------------------------------------------------------------
  // PSM
  // ---------------------------------------------------------------------------

  // The bytes above the low sixteen bits, as many as are needed.
  function HighBytes(rest: nat): seq<byte> {
    if rest == 0 then [] else [rest % 0x100] + HighBytes(rest / 0x100)
  }

  function EncodePsm(psm: u32): seq<byte> { Le16(psm % 0x1_0000) + HighBytes(psm / 0x1_0000) }

  method SerializePsm(psm: u32) returns (out: seq<byte>)
    ensures out == EncodePsm(psm)
  {
    out := Le16(psm % 0x1_0000);
    var rest: nat := psm / 0x1_0000;
    while rest != 0
      invariant out + HighBytes(rest) == EncodePsm(psm)
    {
      assert out + HighBytes(rest) == (out + [rest % 0x100]) + HighBytes(rest / 0x100);
      out := out + [rest % 0x100];
      rest := rest / 0x100;
    }
    assert out + [] == out;
  }

  // How many bytes the field at the front of `data` extends over: while the latest is odd.
  function PsmEnd(data: seq<byte>, length: nat): Result<nat, CodecError>
    requires 2 <= length <= |data|
    decreases |data| - length
  {
    if data[length - 1] % 2 == 0 then Success(length)
    else if length >= |data| then Failure(TruncatedPsm)
    else PsmEnd(data, length + 1)
  }

  function PsmValue(data: seq<byte>): nat {
    if data == [] then 0 else data[0] + 0x100 * PsmValue(data[1..])
  }

  // The field's length and value; past four bytes the value no longer fits.
  function DecodePsm(data: seq<byte>): Result<(nat, u32), CodecError> {
    if |data| < 2 then Failure(NotEnoughData)
    else
      var end := PsmEnd(data, 2);
      if end.Failure? then Failure(end.error)
      else if end.value > 4 || end.value > |data| || PsmValue(data[..end.value]) >= 0x1_0000_0000 then
        Failure(PsmTooLong)
      else Success((end.value, PsmValue(data[..end.value])))
  }

  // `validate_psm`: odd, with an even byte everywhere above the lowest.
  predicate EvenBytes(high: nat) { high == 0 || (high % 2 == 0 && EvenBytes(high / 0x100)) }

  predicate ValidPsm(psm: u32) { psm % 2 == 1 && EvenBytes(psm / 0x100) }

  /** A valid PSM is read back, with whatever follows it, exactly when it fits sixteen bits. */
  lemma PsmRoundTrip(psm: u32, rest: seq<byte>)
    requires ValidPsm(psm)
    ensures DecodePsm(EncodePsm(psm) + rest) == Success((2, psm % 0x1_0000))
    ensures psm <= 0xFFFF ==> |EncodePsm(psm)| == 2
    ensures psm > 0xFFFF ==> |EncodePsm(psm)| > 2
  {
    var data := EncodePsm(psm) + rest;
    assert data[..2] == Le16(psm % 0x1_0000);
    assert data[1] == (psm / 0x100) % 0x100 && data[1] % 2 == 0;
    assert data[..2][1..] == [data[1]] && [data[1]][1..] == [];
    assert PsmValue([data[1]]) == data[1];
  }

  // ---------------------------------------------------------------------------
  // Configuration options
  // ---------------------------------------------------------------------------

  datatype ConfigurationOption = ConfigurationOption(optionType: byte, hint: bool, value: seq<byte>)

  // A value its length byte can measure.
  predicate Measurable(o: ConfigurationOption) { |o.value| <= 0xFF }

  // A type that leaves room for the hint bit.
  predicate SevenBit(o: ConfigurationOption) { o.optionType < 0x80 }

  function EncodeOption(o: ConfigurationOption): seq<byte>
    requires Measurable(o)
  {
    [if o.hint && o.optionType < 0x80 then o.optionType + 0x80 else o.optionType, |o.value|] + o.value
  }

  function EncodeOptions(options: seq<ConfigurationOption>): seq<byte>
    requires forall o <- options :: Measurable(o)
  {
    if options == [] then [] else EncodeOption(options[0]) + EncodeOptions(options[1..])
  }

  function DecodeOptions(data: seq<byte>): Result<seq<ConfigurationOption>, CodecError> {
    if data == [] then Success([])
    else if |data| < 2 then Failure(TruncatedOption)
    else
      var next: nat := data[1] as nat + 2;
      if |data| < next then Failure(TruncatedOption) else
      var first := ConfigurationOption(data[0] % 0x80, data[0] >= 0x80, data[2..next]);
      var rest := DecodeOptions(data[next..]);
      if rest.Failure? then rest else Success([first] + rest.value)
  }

  method DecodeConfigurationOptions(input: seq<byte>) returns (r: Result<seq<ConfigurationOption>, CodecError>)
    ensures r == DecodeOptions(input)
  {
    var data: seq<byte>, options: seq<ConfigurationOption> := input, [];
    assert DecodeOptions(input).Success? ==> [] + DecodeOptions(input).value == DecodeOptions(input).value;
    while data != []
      invariant DecodeOptions(input)
             == if DecodeOptions(data).Failure?
                 then DecodeOptions(data) else Success(options + DecodeOptions(data).value)
      decreases |data|
    {
      if |data| < 2 { return Failure(TruncatedOption); }
      var length: nat := data[1] as nat;
      if |data| < 2 + length { return Failure(TruncatedOption); }
      ghost var before := options;
      var option := ConfigurationOption(data[0] % 0x80, data[0] >= 0x80, data[2..2 + length]);
      options := options + [option];
      data := data[2 + length..];
      assert DecodeOptions(data).Success? ==>
             before + ([option] + DecodeOptions(data).value) == options + DecodeOptions(data).value;
    }
    assert options + [] == options;
    return Success(options);
  }

  // What an encoded option is read as: the top bit of its type is taken for the hint.
  function ReadAs(o: ConfigurationOption): ConfigurationOption {
    ConfigurationOption(o.optionType % 0x80, o.hint || o.optionType >= 0x80, o.value)
  }

  lemma FirstOptionDecodes(o: ConfigurationOption, rest: seq<byte>)
    requires Measurable(o) && DecodeOptions(rest).Success?
    ensures DecodeOptions(EncodeOption(o) + rest) == Success([ReadAs(o)] + DecodeOptions(rest).value)
  {
    var data := EncodeOption(o) + rest;
    assert data[2..2 + |o.value|] == o.value && data[2 + |o.value|..] == rest;
  }

  /** What is encoded is always accepted, and is read as the same list exactly when every type has seven bits. */
  lemma {:induction false} OptionsRoundTrip(options: seq<ConfigurationOption>)
    requires forall o <- options :: Measurable(o)
    ensures DecodeOptions(EncodeOptions(options)).Success?
    ensures DecodeOptions(EncodeOptions(options)) == Success(options) <==> forall o <- options :: SevenBit(o)
  {
    if options != [] {
      OptionsRoundTrip(options[1..]);
      var first, rest := ReadAs(options[0]), DecodeOptions(EncodeOptions(options[1..])).value;
      FirstOptionDecodes(options[0], EncodeOptions(options[1..]));
      assert options == [options[0]] + options[1..];
      assert first == options[0] <==> SevenBit(options[0]);
      assert ([first] + rest)[0] == first && ([first] + rest)[1..] == rest;
      assert (forall o <- options :: SevenBit(o)) <==> SevenBit(options[0]) && forall o <- options[1..] :: SevenBit(o);
    }
  }

  lemma FirstOptionBytes(data: seq<byte>, next: nat)
    requires |data| >= 2 && next == data[1] as nat + 2 <= |data|
    ensures var o := ConfigurationOption(data[0] % 0x80, data[0] >= 0x80, data[2..next]);
            Measurable(o) && SevenBit(o) && EncodeOption(o) == data[..next]
  {
    assert data[..next] == [data[0], data[1]] + data[2..next];
  }

  /** Encoding inverts decoding on every accepted byte string: the two are a bijection. */
  lemma {:induction false} OptionsBytesRoundTrip(data: seq<byte>)
    requires DecodeOptions(data).Success?
    ensures forall o <- DecodeOptions(data).value :: Measurable(o) && SevenBit(o)
    ensures EncodeOptions(DecodeOptions(data).value) == data
    decreases |data|
  {
    if data != [] {
      hide EncodeOption;
      var next: nat := data[1] as nat + 2;
      FirstOptionBytes(data, next);
      OptionsBytesRoundTrip(data[next..]);
      var options := DecodeOptions(data).value;
      assert options[1..] == DecodeOptions(data[next..]).value;
      assert data == data[..next] + data[next..];
    }
  }

  /** `encode_configuration_options`: fails exactly when a value is too long for its length byte. */
  method EncodeConfigurationOptions(options: seq<ConfigurationOption>) returns (r: Result<seq<byte>, CodecError>)
    ensures r.Success? <==> forall o <- options :: Measurable(o)
    ensures r.Success? ==> r.value == EncodeOptions(options)
  {
    var encoded: seq<byte> := [];
    for i := 0 to |options|
      invariant forall o <- options[..i] :: Measurable(o)
      invariant encoded == EncodeOptions(options[..i])
    {
      var option := options[i];
      if |option.value| > 0xFF {
        assert option in options && !Measurable(option);
        return Failure(OptionTooLong);
      }
      EncodeOptionsSnoc(options[..i], option);
      assert options[..i + 1] == options[..i] + [option];
      encoded := encoded
          + [if option.hint && option.optionType < 0x80 then option.optionType + 0x80 else option.optionType];
      encoded := encoded + [|option.value|];
      encoded := encoded + option.value;
    }
    assert options[..|options|] == options;
    return Success(encoded);
  }

  lemma {:induction false} EncodeOptionsSnoc(options: seq<ConfigurationOption>, o: ConfigurationOption)
    requires Measurable(o) && forall p <- options :: Measurable(p)
    ensures EncodeOptions(options + [o]) == EncodeOptions(options) + EncodeOption(o)
  {
    if options != [] {
      EncodeOptionsSnoc(options[1..], o);
      assert (options + [o])[1..] == options[1..] + [o];
    }
  }

  // ---------------------------------------------------------------------------
  // Signaling frames
  // ---------------------------------------------------------------------------

  datatype ControlFrame =
    | CommandReject(identifier: byte, reason: u16, data: seq<byte>)
    | ConnectionRequest(identifier: byte, psm: u32, sourceCid: u16)
    | ConnectionResponse(identifier: byte, destinationCid: u16, sourceCid: u16, result: u16, status: u16)
    | ConfigureRequest(identifier: byte, destinationCid: u16, flags: u16, options: seq<byte>)
    | ConfigureResponse(identifier: byte, sourceCid: u16, flags: u16, result: u16, options: seq<byte>)
    | DisconnectionRequest(identifier: byte, destinationCid: u16, sourceCid: u16)
    | DisconnectionResponse(identifier: byte, destinationCid: u16, sourceCid: u16)
    | EchoRequest(identifier: byte, data: seq<byte>)
    | EchoResponse(identifier: byte, data: seq<byte>)
    | InformationRequest(identifier: byte, infoType: u16)
    | InformationResponse(identifier: byte, infoType: u16, result: u16, data: seq<byte>)
    | ConnectionParameterUpdateRequest(identifier: byte, intervalMin: u16, intervalMax: u16, latency: u16, timeout: u16)
    | ConnectionParameterUpdateResponse(identifier: byte, result: u16)
    | LeCreditBasedConnectionRequest(
        identifier: byte, lePsm: u16, sourceCid: u16, mtu: u16, mps: u16, initialCredits: u16)
    | LeCreditBasedConnectionResponse(
        identifier: byte, destinationCid: u16, mtu: u16, mps: u16, initialCredits: u16, result: u16)
    | LeFlowControlCredit(identifier: byte, cid: u16, credits: u16)
    | CreditBasedConnectionRequest(
        identifier: byte, spsm: u16, mtu: u16, mps: u16, initialCredits: u16, cids: seq<u16>)
    | CreditBasedConnectionResponse(
        identifier: byte, mtu: u16, mps: u16, initialCredits: u16, result: u16, cids: seq<u16>)
    | CreditBasedReconfigureRequest(identifier: byte, mtu: u16, mps: u16, cids: seq<u16>)
    | CreditBasedReconfigureResponse(identifier: byte, result: u16)
    | Generic(code: byte, identifier: byte, payload: seq<byte>)

  function Code(f: ControlFrame): byte {
    match f
    case CommandReject(_, _, _) => 0x01
    case ConnectionRequest(_, _, _) => 0x02
    case ConnectionResponse(_, _, _, _, _) => 0x03
    case ConfigureRequest(_, _, _, _) => 0x04
    case ConfigureResponse(_, _, _, _, _) => 0x05
    case DisconnectionRequest(_, _, _) => 0x06
    case DisconnectionResponse(_, _, _) => 0x07
    case EchoRequest(_, _) => 0x08
    case EchoResponse(_, _) => 0x09
    case InformationRequest(_, _) => 0x0A
    case InformationResponse(_, _, _, _) => 0x0B
    case ConnectionParameterUpdateRequest(_, _, _, _, _) => 0x12
    case ConnectionParameterUpdateResponse(_, _) => 0x13
    case LeCreditBasedConnectionRequest(_, _, _, _, _, _) => 0x14
    case LeCreditBasedConnectionResponse(_, _, _, _, _, _) => 0x15
    case LeFlowControlCredit(_, _, _) => 0x16
    case CreditBasedConnectionRequest(_, _, _, _, _, _) => 0x17
    case CreditBasedConnectionResponse(_, _, _, _, _, _) => 0x18
    case CreditBasedReconfigureRequest(_, _, _, _) => 0x19
    case CreditBasedReconfigureResponse(_, _) => 0x1A
    case Generic(code, _, _) => code
  }

  predicate Assigned(code: byte) { 0x01 <= code <= 0x0B || 0x12 <= code <= 0x1A }

  function Words(words: seq<u16>): seq<byte> {
    if words == [] then [] else Le16(words[0]) + Words(words[1..])
  }

  // The fixed sixteen-bit fields of a frame, in wire order.
  function Fields(f: ControlFrame): seq<u16> {
    match f
    case CommandReject(_, reason, _) => [reason]
    case ConnectionRequest(_, _, _) => []
    case ConnectionResponse(_, destination, source, result, status) => [destination, source, result, status]
    case ConfigureRequest(_, destination, flags, _) => [destination, flags]
    case ConfigureResponse(_, source, flags, result, _) => [source, flags, result]
    case DisconnectionRequest(_, destination, source) => [destination, source]
    case DisconnectionResponse(_, destination, source) => [destination, source]
    case EchoRequest(_, _) => []
    case EchoResponse(_, _) => []
    case InformationRequest(_, infoType) => [infoType]
    case InformationResponse(_, infoType, result, _) => [infoType, result]
    case ConnectionParameterUpdateRequest(_, low, high, latency, timeout) => [low, high, latency, timeout]
    case ConnectionParameterUpdateResponse(_, result) => [result]
    case LeCreditBasedConnectionRequest(_, lePsm, source, mtu, mps, credits) => [lePsm, source, mtu, mps, credits]
    case LeCreditBasedConnectionResponse(_, destination, mtu, mps, credits, result) =>
      [destination, mtu, mps, credits, result]
    case LeFlowControlCredit(_, cid, credits) => [cid, credits]
    case CreditBasedConnectionRequest(_, spsm, mtu, mps, credits, _) => [spsm, mtu, mps, credits]
    case CreditBasedConnectionResponse(_, mtu, mps, credits, result, _) => [mtu, mps, credits, result]
    case CreditBasedReconfigureRequest(_, mtu, mps, _) => [mtu, mps]
    case CreditBasedReconfigureResponse(_, result) => [result]
    case Generic(_, _, _) => []
  }

  // What follows the fixed fields.
  function Tail(f: ControlFrame): seq<byte> {
    match f
    case CommandReject(_, _, data) => data
    case ConnectionRequest(_, psm, source) => EncodePsm(psm) + Le16(source)
    case ConfigureRequest(_, _, _, options) => options
    case ConfigureResponse(_, _, _, _, options) => options
    case EchoRequest(_, data) => data
    case EchoResponse(_, data) => data
    case InformationResponse(_, _, _, data) => data
    case CreditBasedConnectionRequest(_, _, _, _, _, cids) => Words(cids)
    case CreditBasedConnectionResponse(_, _, _, _, _, cids) => Words(cids)
    case CreditBasedReconfigureRequest(_, _, _, cids) => Words(cids)
    case Generic(_, _, payload) => payload
    case _ => []
  }

  function Payload(f: ControlFrame): seq<byte> { Words(Fields(f)) + Tail(f) }

  // `to_bytes`; the length field wraps at 16 bits.
  function EncodeFrame(f: ControlFrame): seq<byte> {
    [Code(f), f.identifier] + Le16(|Payload(f)| % 0x1_0000) + Payload(f)
  }

  function ReadWords(data: seq<byte>): Result<seq<u16>, CodecError> {
    if data == [] then Success([])
    else if |data| < 2 then Failure(OddCidList)
    else
      var rest := ReadWords(data[2..]);
      if rest.Failure? then rest else Success([Le16At(data, 0)] + rest.value)
  }

  // How many bytes of fixed fields the decoder demands for a code.
  function Needed(code: byte): nat {
    if code in {0x01, 0x0A, 0x13, 0x1A} then 2
    else if code in {0x04, 0x06, 0x07, 0x0B, 0x16, 0x19} then 4
    else if code == 0x05 then 6
    else if code in {0x03, 0x12, 0x17, 0x18} then 8
    else if code in {0x14, 0x15} then 10
    else 0
  }

  function DecodeConnectionRequest(identifier: byte, p: seq<byte>): Result<ControlFrame, CodecError> {
    var psm := DecodePsm(p);
    if psm.Failure? then Failure(psm.error)
    else if psm.value.0 + 2 > |p| then Failure(NotEnoughData)
    else Success(ConnectionRequest(identifier, psm.value.1, Le16At(p, psm.value.0)))
  }

  function WithCids(tail: seq<byte>, build: seq<u16> -> ControlFrame): Result<ControlFrame, CodecError> {
    var cids := ReadWords(tail);
    if cids.Failure? then Failure(cids.error) else Success(build(cids.value))
  }

  function DecodePayload(code: byte, id: byte, p: seq<byte>): Result<ControlFrame, CodecError> {
    if |p| < Needed(code) then Failure(NotEnoughData)
    else if code == 0x01 then Success(CommandReject(id, Le16At(p, 0), p[2..]))
    else if code == 0x02 then DecodeConnectionRequest(id, p)
    else if code == 0x03 then Success(ConnectionResponse(id, Le16At(p, 0), Le16At(p, 2), Le16At(p, 4), Le16At(p, 6)))
    else if code == 0x04 then Success(ConfigureRequest(id, Le16At(p, 0), Le16At(p, 2), p[4..]))
    else if code == 0x05 then Success(ConfigureResponse(id, Le16At(p, 0), Le16At(p, 2), Le16At(p, 4), p[6..]))
    else if code == 0x06 then Success(DisconnectionRequest(id, Le16At(p, 0), Le16At(p, 2)))
    else if code == 0x07 then Success(DisconnectionResponse(id, Le16At(p, 0), Le16At(p, 2)))
    else if code == 0x08 then Success(EchoRequest(id, p))
    else if code == 0x09 then Success(EchoResponse(id, p))
    else if code == 0x0A then Success(InformationRequest(id, Le16At(p, 0)))
    else if code == 0x0B then Success(InformationResponse(id, Le16At(p, 0), Le16At(p, 2), p[4..]))
    else if code == 0x12 then
      Success(ConnectionParameterUpdateRequest(id, Le16At(p, 0), Le16At(p, 2), Le16At(p, 4), Le16At(p, 6)))
    else if code == 0x13 then Success(ConnectionParameterUpdateResponse(id, Le16At(p, 0)))
    else if code == 0x14 then
      Success(LeCreditBasedConnectionRequest(id, Le16At(p, 0), Le16At(p, 2), Le16At(p, 4), Le16At(p, 6), Le16At(p, 8)))
    else if code == 0x15 then
      Success(LeCreditBasedConnectionResponse(id, Le16At(p, 0), Le16At(p, 2), Le16At(p, 4), Le16At(p, 6), Le16At(p, 8)))
    else if code == 0x16 then Success(LeFlowControlCredit(id, Le16At(p, 0), Le16At(p, 2)))
    else if code == 0x17 then
      WithCids(p[8..], cids =>
               CreditBasedConnectionRequest(id, Le16At(p, 0), Le16At(p, 2), Le16At(p, 4), Le16At(p, 6), cids))
    else if code == 0x18 then
      WithCids(p[8..], cids =>
               CreditBasedConnectionResponse(id, Le16At(p, 0), Le16At(p, 2), Le16At(p, 4), Le16At(p, 6), cids))
    else if code == 0x19 then
      WithCids(p[4..], cids => CreditBasedReconfigureRequest(id, Le16At(p, 0), Le16At(p, 2), cids))
    else if code == 0x1A then Success(CreditBasedReconfigureResponse(id, Le16At(p, 0)))
    else Success(Generic(code, id, p))
  }

  function DecodeFrame(pdu: seq<byte>): Result<ControlFrame, CodecError> {
    if |pdu| < 4 then Failure(NotEnoughData)
    else DecodePayload(pdu[0], pdu[1], pdu[4..Min(4 + Le16At(pdu, 2), |pdu|)])
  }

  lemma {:induction false} WordsLength(words: seq<u16>)
    ensures |Words(words)| == 2 * |words|
  {
    if words != [] { WordsLength(words[1..]); }
  }

  lemma {:induction false} WordsAt(words: seq<u16>, tail: seq<byte>, i: nat)
    requires i < |words|
    ensures 2 * i + 2 <= |Words(words) + tail| && Le16At(Words(words) + tail, 2 * i) == words[i]
  {
    WordsLength(words);
    if i > 0 {
      WordsAt(words[1..], tail, i - 1);
      assert Words(words) + tail == Le16(words[0]) + (Words(words[1..]) + tail);
    }
  }

  lemma {:induction false} ReadWordsRoundTrip(words: seq<u16>)
    ensures ReadWords(Words(words)) == Success(words)
  {
    if words != [] {
      ReadWordsRoundTrip(words[1..]);
      var data := Words(words);
      assert data == Le16(words[0]) + Words(words[1..]);
      assert data[2..] == Words(words[1..]);
      assert words == [words[0]] + words[1..];
    }
  }

  lemma {:induction false} ReadWordsLength(data: seq<byte>)
    requires ReadWords(data).Success?
    ensures |Words(ReadWords(data).value)| == |data|
    decreases |data|
  {
    if data != [] {
      ReadWordsLength(data[2..]);
      assert ReadWords(data).value[1..] == ReadWords(data[2..]).value;
    }
  }

  /** Every fixed field, and the tail, is where the decoder looks for it. */
  lemma FieldsInPlace(f: ControlFrame)
    ensures |Payload(f)| == 2 * |Fields(f)| + |Tail(f)|
    ensures Payload(f)[2 * |Fields(f)|..] == Tail(f)
    ensures forall i :: 0 <= i < |Fields(f)| ==> Le16At(Payload(f), 2 * i) == Fields(f)[i]
  {
    WordsLength(Fields(f));
    forall i | 0 <= i < |Fields(f)| ensures Le16At(Payload(f), 2 * i) == Fields(f)[i] {
      WordsAt(Fields(f), Tail(f), i);
    }
  }

  predicate Representable(f: ControlFrame) {
    && |Payload(f)| <= 0xFFFF
    && (f.ConnectionRequest? ==> f.psm <= 0xFFFF)
    && (f.Generic? ==> !Assigned(f.code))
  }

  lemma ConnectionRequestDecodes(f: ControlFrame)
    requires f.ConnectionRequest? && ValidPsm(f.psm)
    ensures DecodeConnectionRequest(f.identifier, Payload(f)) == Success(f) <==> f.psm <= 0xFFFF
    ensures |Payload(f)| < 100
  {
    var p := Payload(f);
    assert p == EncodePsm(f.psm) + Le16(f.sourceCid);
    PsmRoundTrip(f.psm, Le16(f.sourceCid));
    HighBytesShort(f.psm / 0x1_0000);
  }

  lemma HighBytesShort(rest: nat)
    requires rest < 0x1_0000
    ensures |HighBytes(rest)| <= 2
  {
    assert rest / 0x100 / 0x100 == 0 && HighBytes(0) == [];
    assert |HighBytes(rest / 0x100)| <= 1;
  }

  /** A representable frame's payload decodes to it. */
  lemma PayloadRoundTrip(f: ControlFrame)
    requires f.ConnectionRequest? ==> ValidPsm(f.psm) && f.psm <= 0xFFFF
    requires f.Generic? ==> !Assigned(f.code)
    ensures DecodePayload(Code(f), f.identifier, Payload(f)) == Success(f)
  {
    hide Payload, Words, Le16At, ReadWords, DecodeConnectionRequest, ValidPsm;
    FieldsInPlace(f);
    if f.ConnectionRequest? { ConnectionRequestDecodes(f); }
    if f.CreditBasedConnectionRequest? || f.CreditBasedConnectionResponse? || f.CreditBasedReconfigureRequest? {
      ReadWordsRoundTrip(f.cids);
    }
    var p, w := Payload(f), Fields(f);
    assert |w| > 0 ==> Le16At(p, 0) == w[0];
    assert |w| > 1 ==> Le16At(p, 2 * 1) == w[1];
    assert |w| > 2 ==> Le16At(p, 2 * 2) == w[2];
    assert |w| > 3 ==> Le16At(p, 2 * 3) == w[3];
    assert |w| > 4 ==> Le16At(p, 2 * 4) == w[4];
  }

  /** Nothing but a connection request decodes to a frame with a longer payload than was read. */
  lemma DecodedPayloadIsNoLonger(code: byte, id: byte, p: seq<byte>)
    requires DecodePayload(code, id, p).Success? && code != 0x02
    ensures |Payload(DecodePayload(code, id, p).value)| <= |p|
    ensures Assigned(code) ==> !DecodePayload(code, id, p).value.Generic?
  {
    hide Payload, Words;
    var f := DecodePayload(code, id, p).value;
    FieldsInPlace(f);
    if code == 0x17 || code == 0x18 { ReadWordsLength(p[8..]); }
    if code == 0x19 { ReadWordsLength(p[4..]); }
  }

  // The payload the decoder reads off an encoded frame: its length is taken modulo 2^16.
  function ReadBack(f: ControlFrame): seq<byte> { Payload(f)[..|Payload(f)| % 0x1_0000] }

  lemma WireReads(f: ControlFrame)
    ensures DecodeFrame(EncodeFrame(f)) == DecodePayload(Code(f), f.identifier, ReadBack(f))
  {
    hide Payload, DecodePayload;
    var wire, n := EncodeFrame(f), |Payload(f)|;
    assert wire[4..] == Payload(f);
    assert wire[4..Min(4 + n % 0x1_0000, |wire|)] == wire[4..][..n % 0x1_0000];
  }

  /** A signaling frame with a valid PSM survives the wire exactly when it is representable. */
  lemma SignalingRoundTrip(f: ControlFrame)
    requires f.ConnectionRequest? ==> ValidPsm(f.psm)
    ensures DecodeFrame(EncodeFrame(f)) == Success(f) <==> Representable(f)
  {
    hide Payload, DecodePayload, DecodeFrame, EncodeFrame, Code, ValidPsm, Assigned;
    WireReads(f);
    if |Payload(f)| <= 0xFFFF {
      assert ReadBack(f) == Payload(f);
      if Representable(f) {
        PayloadRoundTrip(f);
      } else {
        NotRepresentable(f);
      }
    } else {
      TooLong(f, ReadBack(f));
    }
  }

  lemma NotRepresentable(f: ControlFrame)
    requires f.ConnectionRequest? ==> ValidPsm(f.psm)
    requires (f.ConnectionRequest? && f.psm > 0xFFFF) || (f.Generic? && Assigned(f.code))
    ensures DecodePayload(Code(f), f.identifier, Payload(f)) != Success(f)
  {
    if f.ConnectionRequest? {
      ConnectionRequestDecodes(f);
    } else if DecodePayload(Code(f), f.identifier, Payload(f)).Success? && f.code != 0x02 {
      DecodedPayloadIsNoLonger(f.code, f.identifier, Payload(f));
    }
  }

  lemma TooLong(f: ControlFrame, read: seq<byte>)
    requires f.ConnectionRequest? ==> ValidPsm(f.psm)
    requires |Payload(f)| > 0xFFFF && |read| < |Payload(f)|
    ensures DecodePayload(Code(f), f.identifier, read) != Success(f)
  {
    if f.ConnectionRequest? {
      ConnectionRequestDecodes(f);
    } else if DecodePayload(Code(f), f.identifier, read).Success? {
      if Code(f) != 0x02 { DecodedPayloadIsNoLonger(Code(f), f.identifier, read); }
    }
  }

  /** A PSM the validator accepts, of more than sixteen bits, whose connection request reads back as something else. */
  lemma WidePsmIsLost()
    ensures ValidPsm(0x2_0001)
    ensures var f := ConnectionRequest(1, 0x2_0001, 0x40);
            DecodeFrame(EncodeFrame(f)) != Success(f)
  {
    assert EvenBytes(0x200) by { assert EvenBytes(0) && EvenBytes(2) && 0x200 / 0x100 == 2; }
    SignalingRoundTrip(ConnectionRequest(1, 0x2_0001, 0x40));
  }
}
