/**
  * SDP data elements (section 3.3 of Vol 3 Part B of the Bluetooth Core Specification):
  * the recursive type-length-value encoding and its depth-limited parser.
  */
module SdpElement {
  import opened Bytes

  const MAX_NESTING: nat := 32
  const TWO_128: nat := 0x1_0000_0000_0000_0000_0000_0000_0000_0000

  type u128 = n: int | 0 <= n < TWO_128
  type i128 = n: int | 0 - TWO_128 <= 2 * n < TWO_128

  // UUIDs and URLs are kept as their bytes: two, four or sixteen little-endian bytes, and UTF-8.
  datatype Element =
    | Nil
    | Unsigned(value: u128, size: byte)
    | Signed(number: i128, size: byte)
    | Uuid(uuid: seq<byte>)
    | Text(text: seq<byte>)
    | Boolean(flag: bool)
    | Sequence(elements: seq<Element>)
    | Alternative(elements: seq<Element>)
    | Url(url: seq<byte>)

  datatype SdpError = InvalidPacket | InvalidArgument

  // ---------------------------------------------------------------------------
  // Integers
  // ---------------------------------------------------------------------------

  function Pow256(n: nat): nat { if n == 0 then 1 else 0x100 * Pow256(n - 1) }

  lemma Pow256Values()
    ensures Pow256(1) == 0x100 && Pow256(2) == 0x1_0000 && Pow256(4) == 0x1_0000_0000
    ensures Pow256(8) == 0x1_0000_0000_0000_0000 && Pow256(16) == TWO_128
  {
    assert Pow256(3) == 0x100_0000 && Pow256(5) == 0x100_0000_0000 && Pow256(6) == 0x1_0000_0000_0000;
    assert Pow256(7) == 0x100_0000_0000_0000 && Pow256(8) == 0x1_0000_0000_0000_0000;
    assert Pow256(9) == 0x100 * Pow256(8) && Pow256(10) == 0x100 * Pow256(9) && Pow256(11) == 0x100 * Pow256(10);
    assert Pow256(12) == 0x100 * Pow256(11) && Pow256(13) == 0x100 * Pow256(12) && Pow256(14) == 0x100 * Pow256(13);
    assert Pow256(15) == 0x100 * Pow256(14);
  }

  // The low `n` bytes of `value`, most significant first.
  function ToBe(value: nat, n: nat): (r: seq<byte>)
    ensures |r| == n
  {
    if n == 0 then [] else ToBe(value / 0x100, n - 1) + [value % 0x100]
  }

  function FromBe(data: seq<byte>): nat {
    if data == [] then 0 else 0x100 * FromBe(data[..|data| - 1]) + data[|data| - 1]
  }

  lemma {:induction false} BeRoundTrip(value: nat, n: nat)
    requires value < Pow256(n)
    ensures FromBe(ToBe(value, n)) == value
  {
    if n > 0 {
      BeRoundTrip(value / 0x100, n - 1);
      var data := ToBe(value, n);
      assert data[..n - 1] == ToBe(value / 0x100, n - 1);
    }
  }

  lemma {:induction false} FromBeBound(data: seq<byte>)
    ensures FromBe(data) < Pow256(|data|)
  {
    if data != [] { FromBeBound(data[..|data| - 1]); }
  }

  predicate FixedSize(size: nat) { size == 1 || size == 2 || size == 4 || size == 8 || size == 16 }

  // The two's complement of `number` in `n` bytes.
  function TwosComplement(number: int, n: nat): nat
    requires 0 - Pow256(n) <= number
  {
    if number >= 0 then number else number + Pow256(n)
  }

  predicate SignedFits(number: int, n: nat) { 0 - Pow256(n) <= 2 * number < Pow256(n) }

  // The value a 128-bit accumulator holds after the bytes went in from the right.
  function Accumulate(start: nat, data: seq<byte>): nat {
    if data == [] then start else (0x100 * Accumulate(start, data[..|data| - 1])) % TWO_128 + data[|data| - 1]
  }

  function AsSigned(n: u128): i128 {
    if 2 * n < TWO_128 then n else n - TWO_128
  }

  lemma {:induction false} AccumulateBound(start: nat, data: seq<byte>)
    requires start < TWO_128
    ensures Accumulate(start, data) < TWO_128
  {
    if data != [] {
      AccumulateBound(start, data[..|data| - 1]);
      var acc := Accumulate(start, data[..|data| - 1]);
      assert (0x100 * acc) % TWO_128 % 0x100 == 0 by { ShiftedIsRound(acc); }
    }
  }

  lemma ShiftedIsRound(acc: nat)
    ensures (0x100 * acc) % TWO_128 % 0x100 == 0
  {
    var q := (0x100 * acc) / TWO_128;
    assert 0x100 * acc == TWO_128 * q + (0x100 * acc) % TWO_128;
    assert (0x100 * acc) % TWO_128 == 0x100 * (acc - (TWO_128 / 0x100) * q);
  }

  function DecodeUnsigned(data: seq<byte>): u128 {
    AccumulateBound(0, data);
    Accumulate(0, data)
  }

  function DecodeSigned(data: seq<byte>): i128 {
    if data == [] then 0
    else
      AccumulateBound(if data[0] >= 0x80 then TWO_128 - 1 else 0, data);
      AsSigned(Accumulate(if data[0] >= 0x80 then TWO_128 - 1 else 0, data))
  }

  method BeToU128(data: seq<byte>) returns (acc: u128)
    ensures acc == DecodeUnsigned(data)
  {
    acc := Fold(0, data);
  }

  method BeToI128(data: seq<byte>) returns (r: i128)
    ensures r == DecodeSigned(data)
  {
    if data == [] { return 0; }
    var acc := Fold(if data[0] >= 0x80 then TWO_128 - 1 else 0, data);
    r := AsSigned(acc);
  }

  method Fold(start: u128, data: seq<byte>) returns (acc: u128)
    ensures acc == Accumulate(start, data)
  {
    acc := start;
    assert data[..0] == [];
    for i := 0 to |data|
      invariant acc == Accumulate(start, data[..i])
    {
      assert data[..i + 1][..i] == data[..i];
      AccumulateBound(start, data[..i + 1]);
      acc := (0x100 * acc) % TWO_128 + data[i];
    }
    assert data[..|data|] == data;
  }

  lemma {:induction false} Pow256Grows(m: nat, n: nat)
    requires m <= n
    ensures Pow256(m) <= Pow256(n)
  {
    if m < n { Pow256Grows(m, n - 1); }
  }

  lemma NoOverflow(x: nat, q: nat)
    requires x < TWO_128
    ensures (q * TWO_128 + x) % TWO_128 == x
  {
  }

  lemma {:induction false} UnsignedIsExact(data: seq<byte>)
    requires |data| <= 16
    ensures DecodeUnsigned(data) == FromBe(data)
  {
    if data != [] {
      var front := data[..|data| - 1];
      UnsignedIsExact(front);
      FromBeBound(front);
      Pow256Grows(|data|, 16);
      Pow256Values();
      NoOverflow(0x100 * FromBe(front), 0);
    }
  }

  lemma {:induction false} NegativeIsExact(data: seq<byte>)
    requires |data| <= 16
    ensures Accumulate(TWO_128 - 1, data) == TWO_128 - Pow256(|data|) + FromBe(data)
  {
    if data != [] {
      var front := data[..|data| - 1];
      NegativeIsExact(front);
      FromBeBound(front);
      Pow256Grows(|data|, 16);
      Pow256Values();
      var x := TWO_128 - Pow256(|data|) + 0x100 * FromBe(front);
      assert 0x100 * (TWO_128 - Pow256(|front|) + FromBe(front)) == 0xFF * TWO_128 + x;
      NoOverflow(x, 0xFF);
    }
  }

  lemma {:induction false} SignBit(v: nat, n: nat)
    requires n > 0 && v < Pow256(n)
    ensures ToBe(v, n)[0] < 0x80 <==> v < 0x80 * Pow256(n - 1)
  {
    if n > 1 {
      SignBit(v / 0x100, n - 1);
      assert ToBe(v, n)[0] == ToBe(v / 0x100, n - 1)[0];
    } else {
      assert v / 0x100 == 0 && ToBe(v, 1) == [] + [v];
    }
  }

  /** Two's complement in one, two, four, eight or sixteen bytes gives the number back. */
  lemma SignedRoundTrip(number: int, n: nat)
    requires FixedSize(n) && SignedFits(number, n)
    ensures DecodeSigned(ToBe(TwosComplement(number, n), n)) == number
  {
    var v := TwosComplement(number, n);
    var data := ToBe(v, n);
    BeRoundTrip(v, n);
    SignBit(v, n);
    Pow256Values();
    Pow256Grows(n, 16);
    if number >= 0 { UnsignedIsExact(data); } else { NegativeIsExact(data); }
  }

  // ---------------------------------------------------------------------------
  // Encoding
  // ---------------------------------------------------------------------------

  function Reversed(data: seq<byte>): seq<byte> { seq(|data|, i requires 0 <= i < |data| => data[|data| - 1 - i]) }

  function SizeIndex(size: nat): byte
    requires FixedSize(size)
  {
    if size == 1 then 0 else if size == 2 then 1 else if size == 4 then 2 else if size == 8 then 3 else 4
  }

  predicate UuidSize(n: nat) { n == 2 || n == 4 || n == 16 }

  // A length header of one, two or four bytes, then the body.
  function WithLength(kind: byte, body: seq<byte>): Result<seq<byte>, SdpError>
    requires kind <= 8
  {
    if |body| <= 0xFF then Success([8 * kind + 5] + ToBe(|body|, 1) + body)
    else if |body| <= 0xFFFF then Success([8 * kind + 6] + ToBe(|body|, 2) + body)
    else if |body| <= 0xFFFF_FFFF then Success([8 * kind + 7] + ToBe(|body|, 4) + body)
    else Failure(InvalidArgument)
  }

  function Encode(e: Element): Result<seq<byte>, SdpError>
    decreases e
  {
    match e
    case Nil => Success([0x00])
    case Unsigned(value, size) =>
      if FixedSize(size) && value < Pow256(size) then Success([0x08 + SizeIndex(size)] + ToBe(value, size))
      else Failure(InvalidArgument)
    case Signed(number, size) =>
      if FixedSize(size) && SignedFits(number, size) then
        Success([0x10 + SizeIndex(size)] + ToBe(TwosComplement(number, size), size))
      else Failure(InvalidArgument)
    case Uuid(uuid) =>
      if UuidSize(|uuid|) then Success([0x18 + SizeIndex(|uuid|)] + Reversed(uuid)) else Failure(InvalidArgument)
    case Text(text) => WithLength(4, text)
    case Boolean(flag) => Success([0x28, if flag then 1 else 0])
    case Sequence(elements) =>
      var body := EncodeItems(elements);
      if body.Failure? then Failure(body.error) else WithLength(6, body.value)
    case Alternative(elements) =>
      var body := EncodeItems(elements);
      if body.Failure? then Failure(body.error) else WithLength(7, body.value)
    case Url(url) => WithLength(8, url)
  }

  function EncodeItems(elements: seq<Element>): Result<seq<byte>, SdpError>
    decreases elements
  {
    if elements == [] then Success([])
    else
      var first := Encode(elements[0]);
      if first.Failure? then Failure(first.error)
      else
        var rest := EncodeItems(elements[1..]);
        if rest.Failure? then Failure(rest.error) else Success(first.value + rest.value)
  }

  lemma {:induction false} ToBeSuffix(value: nat, n: nat, k: nat)
    requires k <= n
    ensures ToBe(value, n)[n - k..] == ToBe(value, k)
  {
    if k > 0 {
      ToBeSuffix(value / 0x100, n - 1, k - 1);
      assert ToBe(value, n)[n - k..] == ToBe(value / 0x100, n - 1)[n - k..] + [value % 0x100];
    }
  }

  predicate AllZero(data: seq<byte>) { forall i :: 0 <= i < |data| ==> data[i] == 0 }

  lemma ZeroConcat(a: seq<byte>, b: seq<byte>)
    ensures AllZero(a + b) <==> AllZero(a) && AllZero(b)
  {
    assert forall i :: 0 <= i < |a| ==> (a + b)[i] == a[i];
    assert forall i :: 0 <= i < |b| ==> (a + b)[|a| + i] == b[i];
  }

  lemma {:induction false} ToBeLeading(value: nat, n: nat, k: nat)
    requires k <= n && value < Pow256(n)
    ensures AllZero(ToBe(value, n)[..n - k]) <==> value < Pow256(k)
  {
    var data, rest := ToBe(value, n), if n > 0 then ToBe(value / 0x100, n - 1) else [];
    if k < n {
      if k == 0 {
        ToBeLeading(value / 0x100, n - 1, 0);
        assert data[..n] == rest[..n - 1] + [value % 0x100];
        ZeroConcat(rest[..n - 1], [value % 0x100]);
        assert AllZero([value % 0x100]) <==> [value % 0x100][0] == 0;
        assert value == 0x100 * (value / 0x100) + value % 0x100;
      } else {
        ToBeLeading(value / 0x100, n - 1, k - 1);
        assert data[..n - k] == rest[..n - k];
        DivideBelow(value, Pow256(k - 1));
      }
    }
  }

  lemma DivideBelow(value: nat, p: nat)
    ensures value < 0x100 * p <==> value / 0x100 < p
  {
  }

  lemma {:induction false} ToBeModulo(value: nat, q: nat, k: nat)
    ensures ToBe(value + q * Pow256(k), k) == ToBe(value, k)
  {
    if k > 0 {
      var more := value + q * Pow256(k);
      assert q * Pow256(k) == 0x100 * (q * Pow256(k - 1));
      assert more / 0x100 == value / 0x100 + q * Pow256(k - 1) && more % 0x100 == value % 0x100;
      ToBeModulo(value / 0x100, q, k - 1);
    }
  }

  /** Sixteen big-endian bytes; those that must go may not hold anything. */
  method UnsignedToBytes(value: u128, size: byte) returns (r: Result<seq<byte>, SdpError>)
    ensures r == if FixedSize(size) && value < Pow256(size) then Success(ToBe(value, size))
                 else Failure(InvalidArgument)
  {
    if !FixedSize(size) { return Failure(InvalidArgument); }
    Pow256Values();
    var all, start := ToBe(value, 16), 16 - size;
    ToBeLeading(value, 16, size);
    ToBeSuffix(value, 16, size);
    for i := 0 to start
      invariant AllZero(all[..i])
    {
      if all[i] != 0 {
        assert all[..start][i] != 0;
        return Failure(InvalidArgument);
      }
      assert all[..i + 1] == all[..i] + [all[i]];
    }
    r := Success(all[start..]);
  }

  lemma HighBytes(size: nat)
    requires FixedSize(size)
    ensures TWO_128 == Pow256(16 - size) * Pow256(size)
  {
    Pow256Values();
    if size == 1 { assert Pow256(15) * 0x100 == Pow256(16); }
    if size == 2 { assert 0x100 * Pow256(14) == Pow256(15) && 0x100 * Pow256(15) == Pow256(16); }
    if size == 4 {
      assert Pow256(12) == 0x100 * Pow256(11) && Pow256(11) == 0x100 * Pow256(10);
      assert Pow256(10) == 0x100 * Pow256(9) && Pow256(9) == 0x100 * Pow256(8);
    }
  }

  // The bits of a 128-bit number.
  function Bits(number: i128): u128 { if number >= 0 then number else number + TWO_128 }

  // The low bytes of the sixteen-byte two's complement are the shorter one.
  lemma LowTwosComplement(number: i128, size: nat)
    requires FixedSize(size) && SignedFits(number, size)
    ensures ToBe(Bits(number), size) == ToBe(TwosComplement(number, size), size)
  {
    HighBytes(size);
    if number < 0 {
      var q := Pow256(16 - size) - 1;
      assert q * Pow256(size) == Pow256(16 - size) * Pow256(size) - Pow256(size);
      assert Bits(number) == TwosComplement(number, size) + q * Pow256(size);
      ToBeModulo(TwosComplement(number, size), q, size);
    }
  }

  /** The low bytes of sixteen, if the number is in the range of their width. */
  method SignedToBytes(number: i128, size: byte) returns (r: Result<seq<byte>, SdpError>)
    ensures r == if FixedSize(size) && SignedFits(number, size) then Success(ToBe(TwosComplement(number, size), size))
                 else Failure(InvalidArgument)
  {
    if !FixedSize(size) { return Failure(InvalidArgument); }
    Pow256Values();
    if size < 16 {
      var bound := if size == 1 then 0x80 else if size == 2 then 0x8000 else if size == 4 then 0x8000_0000
          else 0x8000_0000_0000_0000;
      if number < 0 - bound || number > bound - 1 { return Failure(InvalidArgument); }
    }
    var all := ToBe(Bits(number), 16);
    LowTwosComplement(number, size);
    ToBeSuffix(Bits(number), 16, size);
    r := Success(all[16 - size..]);
  }

  method ReverseBytes(data: seq<byte>) returns (r: seq<byte>)
    ensures r == Reversed(data)
  {
    r := [];
    for i := 0 to |data|
      invariant |r| == i && forall k :: 0 <= k < i ==> r[k] == data[i - 1 - k]
    {
      r := [data[i]] + r;
    }
  }

  // The value bytes of an element, without its header.
  function ValueBytes(e: Element): Result<seq<byte>, SdpError> {
    match e
    case Nil => Success([])
    case Unsigned(value, size) =>
      if FixedSize(size) && value < Pow256(size) then Success(ToBe(value, size)) else Failure(InvalidArgument)
    case Signed(number, size) =>
      if FixedSize(size) && SignedFits(number, size) then Success(ToBe(TwosComplement(number, size), size))
      else Failure(InvalidArgument)
    case Uuid(uuid) => if UuidSize(|uuid|) then Success(Reversed(uuid)) else Failure(InvalidArgument)
    case Text(text) => Success(text)
    case Boolean(flag) => Success([if flag then 1 else 0])
    case Sequence(elements) => EncodeItems(elements)
    case Alternative(elements) => EncodeItems(elements)
    case Url(url) => Success(url)
  }

  method WriteValue(e: Element) returns (r: Result<seq<byte>, SdpError>)
    ensures r == ValueBytes(e)
    decreases e, 0
  {
    match e {
      case Nil => r := Success([]);
      case Unsigned(value, size) => r := UnsignedToBytes(value, size);
      case Signed(number, size) => r := SignedToBytes(number, size);
      case Uuid(uuid) =>
        if !UuidSize(|uuid|) { return Failure(InvalidArgument); }
        var be := ReverseBytes(uuid);
        r := Success(be);
      case Text(text) => r := Success(text);
      case Boolean(flag) => r := Success([if flag then 1 else 0]);
      case Sequence(elements) => r := WriteItems(elements);
      case Alternative(elements) => r := WriteItems(elements);
      case Url(url) => r := Success(url);
    }
  }

  function TypeCode(e: Element): byte {
    match e
    case Nil => 0
    case Unsigned(_, _) => 1
    case Signed(_, _) => 2
    case Uuid(_) => 3
    case Text(_) => 4
    case Boolean(_) => 5
    case Sequence(_) => 6
    case Alternative(_) => 7
    case Url(_) => 8
  }

  /** The writer as it is written: the value bytes, then a size index with its length bytes, put together. */
  method Write(e: Element) returns (r: Result<seq<byte>, SdpError>)
    ensures r == Encode(e)
    decreases e, 1
  {
    hide FixedSize, SignedFits, UuidSize, Reversed, TwosComplement, ToBe, Pow256, EncodeItems;
    var value := WriteValue(e);
    if value.Failure? { return Failure(value.error); }
    var data, index: byte, sizeBytes: seq<byte> := value.value, 0, [];
    if e.Unsigned? || e.Signed? || e.Uuid? {
      FixedWidth(e);
      index := if |data| <= 1 then 0 else if |data| == 2 then 1 else if |data| == 4 then 2 else if |data| == 8 then 3
          else 4;
    } else if !e.Nil? && !e.Boolean? {
      if |data| <= 0xFF {
        index, sizeBytes := 5, ToBe(|data|, 1);
      } else if |data| <= 0xFFFF {
        index, sizeBytes := 6, ToBe(|data|, 2);
      } else if |data| <= 0xFFFF_FFFF {
        index, sizeBytes := 7, ToBe(|data|, 4);
      } else {
        return Failure(InvalidArgument);
      }
    }
    r := Success([8 * TypeCode(e) + index] + sizeBytes + data);
    assert [8 * TypeCode(e) + index] + [] == [8 * TypeCode(e) + index];
    assert e.Nil? ==> [0x00] + [] == [0x00];
    assert e.Boolean? ==> [0x28] + data == [0x28, data[0]];
  }

  lemma FixedWidth(e: Element)
    requires (e.Unsigned? || e.Signed? || e.Uuid?) && ValueBytes(e).Success?
    ensures var n := |ValueBytes(e).value|;
            && FixedSize(n) && (e.Uuid? ==> n == |e.uuid|) && (!e.Uuid? ==> n == e.size)
            && SizeIndex(n) == if n <= 1 then 0 else if n == 2 then 1 else if n == 4 then 2 else if n == 8 then 3 else 4
  {
  }

  method WriteItems(elements: seq<Element>) returns (r: Result<seq<byte>, SdpError>)
    ensures r == EncodeItems(elements)
    decreases elements, 0
  {
    hide Encode;
    var data: seq<byte> := [];
    var i := 0;
    BytesBefore(data, EncodeItems(elements));
    while i < |elements|
      invariant 0 <= i <= |elements|
      invariant Joined(data, EncodeItems(elements[i..])) == EncodeItems(elements)
    {
      var first := Write(elements[i]);
      assert elements[i..][0] == elements[i] && elements[i..][1..] == elements[i + 1..];
      if first.Failure? { return Failure(first.error); }
      JoinedMore(data, first.value, EncodeItems(elements[i + 1..]));
      data := data + first.value;
      i := i + 1;
    }
    assert data + [] == data;
    r := Success(data);
  }

  function Joined(data: seq<byte>, rest: Result<seq<byte>, SdpError>): Result<seq<byte>, SdpError> {
    if rest.Failure? then rest else Success(data + rest.value)
  }

  lemma BytesBefore(data: seq<byte>, rest: Result<seq<byte>, SdpError>)
    ensures data == [] ==> Joined(data, rest) == rest
  {
    if rest.Success? { assert [] + rest.value == rest.value; }
  }

  lemma JoinedMore(data: seq<byte>, first: seq<byte>, rest: Result<seq<byte>, SdpError>)
    ensures Joined(data, Joined(first, rest)) == Joined(data + first, rest)
  {
    if rest.Success? { assert data + (first + rest.value) == data + first + rest.value; }
  }

  // ---------------------------------------------------------------------------
  // Parsing
  // ---------------------------------------------------------------------------

  predicate Tail(b: byte) { 0x80 <= b <= 0xBF }

  // Well-formed UTF-8 (table 3-7 of the Unicode Standard).
  predicate Utf8(s: seq<byte>) {
    s == []
    || (s[0] <= 0x7F && Utf8(s[1..]))
    || (0xC2 <= s[0] <= 0xDF && |s| >= 2 && Tail(s[1]) && Utf8(s[2..]))
    || (0xE0 <= s[0] <= 0xEF && |s| >= 3 && Tail(s[1]) && Tail(s[2])
        && (s[0] == 0xE0 ==> s[1] >= 0xA0) && (s[0] == 0xED ==> s[1] <= 0x9F) && Utf8(s[3..]))
    || (0xF0 <= s[0] <= 0xF4 && |s| >= 4 && Tail(s[1]) && Tail(s[2]) && Tail(s[3])
        && (s[0] == 0xF0 ==> s[1] >= 0x90) && (s[0] == 0xF4 ==> s[1] <= 0x8F) && Utf8(s[4..]))
  }

  // Where the value starts and how long it is, from the size index; None when the length bytes are cut off.
  function ValueSpan(data: seq<byte>, pos: nat, kind: nat, index: nat): (r: Option<(nat, nat)>)
    requires pos <= |data| && index < 8
    ensures r.Some? ==> pos <= r.value.0 <= |data|
  {
    if index == 0 then Some((pos, if kind == 0 then 0 else 1))
    else if index == 1 then Some((pos, 2))
    else if index == 2 then Some((pos, 4))
    else if index == 3 then Some((pos, 8))
    else if index == 4 then Some((pos, 16))
    else
      var n := if index == 5 then 1 else if index == 6 then 2 else 4;
      if pos + n > |data| then None else Some((pos + n, FromBe(data[pos..pos + n])))
  }

  // An element that is not a container.
  function Leaf(kind: nat, value: seq<byte>): Option<Element> {
    if kind == 0 then Some(Nil)
    else if kind == 1 then Some(Unsigned(DecodeUnsigned(value), |value| % 0x100))
    else if kind == 2 then Some(Signed(DecodeSigned(value), |value| % 0x100))
    else if kind == 3 then if UuidSize(|value|) then Some(Uuid(Reversed(value))) else None
    else if kind == 4 then Some(Text(value))
    else if kind == 5 then Some(Boolean(value != [] && value[0] == 1))
    else if kind == 8 then if Utf8(value) then Some(Url(value)) else None
    else None
  }

  function ParseAt(data: seq<byte>, offset: nat, depth: nat): (r: Result<(nat, Element), SdpError>)
    ensures r.Success? ==> offset < r.value.0 <= |data|
    decreases |data| - offset, 0
  {
    if offset >= |data| then Failure(InvalidPacket)
    else
      var kind, index := data[offset] / 8, data[offset] % 8;
      var span := ValueSpan(data, offset + 1, kind, index);
      if span.None? then Failure(InvalidPacket)
      else
        var start := span.value.0;
        var end := start + span.value.1;
        if end > |data| then Failure(InvalidPacket)
        else if kind == 6 || kind == 7 then
          if depth >= MAX_NESTING then Failure(InvalidPacket)
          else
            var items := ParseItems(data, start, end, depth + 1);
            if items.Failure? then Failure(items.error)
            else Success((end, if kind == 6 then Sequence(items.value) else Alternative(items.value)))
        else
          var leaf := Leaf(kind, data[start..end]);
          if leaf.None? then Failure(InvalidPacket) else Success((end, leaf.value))
  }

  // The elements from `pos` to exactly `end`.
  function ParseItems(data: seq<byte>, pos: nat, end: nat, depth: nat): Result<seq<Element>, SdpError>
    requires end <= |data|
    decreases |data| - pos, 1
  {
    if pos >= end then (if pos == end then Success([]) else Failure(InvalidPacket))
    else
      var first := ParseAt(data, pos, depth);
      if first.Failure? then Failure(first.error)
      else
        var rest := ParseItems(data, first.value.0, end, depth);
        if rest.Failure? then rest else Success([first.value.1] + rest.value)
  }

  // A big-endian length of `n` bytes at `pos`.
  method ReadLength(data: seq<byte>, pos: nat, n: nat) returns (r: Option<nat>)
    ensures r == if pos + n > |data| then None else Some(FromBe(data[pos..pos + n]))
  {
    if pos + n > |data| { return None; }
    var length: nat := 0;
    assert data[pos..pos] == [];
    for i := 0 to n
      invariant length == FromBe(data[pos..pos + i])
    {
      assert data[pos..pos + i + 1][..i] == data[pos..pos + i];
      length := 0x100 * length + data[pos + i];
    }
    r := Some(length);
  }

  method ReadSpan(data: seq<byte>, offset: nat, kind: nat, index: nat) returns (r: Option<(nat, nat)>)
    requires offset <= |data| && index < 8
    ensures r == ValueSpan(data, offset, kind, index)
  {
    var n := if index == 5 then 1 else if index == 6 then 2 else 4;
    match index {
      case 0 => r := Some((offset, if kind == 0 then 0 else 1));
      case 1 => r := Some((offset, 2));
      case 2 => r := Some((offset, 4));
      case 3 => r := Some((offset, 8));
      case 4 => r := Some((offset, 16));
      case _ =>
        var length := ReadLength(data, offset, n);
        r := if length.None? then None else Some((offset + n, length.value));
    }
  }

  method ParseLeaf(kind: nat, value: seq<byte>) returns (r: Option<Element>)
    ensures r == Leaf(kind, value)
  {
    match kind {
      case 0 => r := Some(Nil);
      case 1 =>
        var n := BeToU128(value);
        r := Some(Unsigned(n, |value| % 0x100));
      case 2 =>
        var n := BeToI128(value);
        r := Some(Signed(n, |value| % 0x100));
      case 3 =>
        var le := ReverseBytes(value);
        r := if UuidSize(|le|) then Some(Uuid(le)) else None;
      case 4 => r := Some(Text(value));
      case 5 => r := Some(Boolean(value != [] && value[0] == 1));
      case 8 => r := if Utf8(value) then Some(Url(value)) else None;
      case _ => r := None;
    }
  }

  /** The parser as it is written: a position that moves, a loop over a container's elements, recursion into each. */
  method Parse(data: seq<byte>, offset: nat, depth: nat) returns (r: Result<(nat, Element), SdpError>)
    ensures r == ParseAt(data, offset, depth)
    decreases |data| - offset, 0
  {
    hide Leaf, ParseItems;
    if offset >= |data| { return Failure(InvalidPacket); }
    var kind, index := data[offset] / 8, data[offset] % 8;
    var span := ReadSpan(data, offset + 1, kind, index);
    if span.None? { return Failure(InvalidPacket); }
    var start := span.value.0;
    var end := start + span.value.1;
    if end > |data| { return Failure(InvalidPacket); }
    if kind == 6 || kind == 7 {
      if depth >= MAX_NESTING { return Failure(InvalidPacket); }
      var items := ParseContainer(data, start, end, depth + 1);
      if items.Failure? { return Failure(items.error); }
      r := Success((end, if kind == 6 then Sequence(items.value) else Alternative(items.value)));
    } else {
      var leaf := ParseLeaf(kind, data[start..end]);
      if leaf.None? { return Failure(InvalidPacket); }
      r := Success((end, leaf.value));
    }
  }

  method ParseContainer(data: seq<byte>, start: nat, end: nat, depth: nat) returns (r: Result<seq<Element>, SdpError>)
    requires start <= end <= |data|
    ensures r == ParseItems(data, start, end, depth)
    decreases |data| - start, 1
  {
    hide ParseAt;
    var elements: seq<Element> := [];
    var inner := start;
    AfterNothing(ParseItems(data, start, end, depth));
    while inner < end
      invariant start <= inner <= |data|
      invariant After(elements, ParseItems(data, inner, end, depth)) == ParseItems(data, start, end, depth)
      decreases |data| - inner
    {
      var child := Parse(data, inner, depth);
      if child.Failure? { return Failure(child.error); }
      AfterOne(elements, child.value.1, ParseItems(data, child.value.0, end, depth));
      elements := elements + [child.value.1];
      inner := child.value.0;
    }
    if inner != end { return Failure(InvalidPacket); }
    assert elements + [] == elements;
    r := Success(elements);
  }

  lemma AfterNothing(rest: Result<seq<Element>, SdpError>)
    ensures After([], rest) == rest
  {
    if rest.Success? { assert [] + rest.value == rest.value; }
  }

  function After(elements: seq<Element>, rest: Result<seq<Element>, SdpError>): Result<seq<Element>, SdpError> {
    if rest.Failure? then rest else Success(elements + rest.value)
  }

  lemma AfterOne(elements: seq<Element>, e: Element, rest: Result<seq<Element>, SdpError>)
    ensures After(elements, After([e], rest)) == After(elements + [e], rest)
  {
    if rest.Success? { assert elements + ([e] + rest.value) == elements + [e] + rest.value; }
  }

  // ---------------------------------------------------------------------------
  // Round trip in context
  // ---------------------------------------------------------------------------

  function Depth(e: Element): nat
    decreases e
  {
    if e.Sequence? || e.Alternative? then 1 + DepthOf(e.elements) else 0
  }

  function DepthOf(elements: seq<Element>): nat
    decreases elements
  {
    if elements == [] then 0 else Max(Depth(elements[0]), DepthOf(elements[1..]))
  }

  // The URLs in the element are text.
  predicate ValidText(e: Element)
    decreases e
  {
    (e.Url? ==> Utf8(e.url)) && (e.Sequence? || e.Alternative? ==> ValidTexts(e.elements))
  }

  predicate ValidTexts(elements: seq<Element>)
    decreases elements
  {
    elements == [] || (ValidText(elements[0]) && ValidTexts(elements[1..]))
  }

  // `bytes` stand in `data` from `offset` on.
  predicate StandsAt(data: seq<byte>, offset: nat, bytes: seq<byte>) {
    offset + |bytes| <= |data| && data[offset..offset + |bytes|] == bytes
  }

  lemma StandsApart(data: seq<byte>, offset: nat, a: seq<byte>, b: seq<byte>)
    requires StandsAt(data, offset, a + b)
    ensures StandsAt(data, offset, a) && StandsAt(data, offset + |a|, b)
  {
    var whole := data[offset..offset + |a + b|];
    assert whole[..|a|] == a && whole[|a|..] == b;
    assert data[offset..offset + |a|] == whole[..|a|];
    assert data[offset + |a|..offset + |a| + |b|] == whole[|a|..];
  }

  lemma StandsFirst(data: seq<byte>, offset: nat, bytes: seq<byte>)
    requires StandsAt(data, offset, bytes) && bytes != []
    ensures offset < |data| && data[offset] == bytes[0]
  {
    assert data[offset..offset + |bytes|][0] == data[offset];
  }

  lemma StandsThere(data: seq<byte>, offset: nat, bytes: seq<byte>)
    requires StandsAt(data, offset, bytes)
    ensures offset + |bytes| <= |data| && data[offset..offset + |bytes|] == bytes
  {
  }

  /** A length header is read back wherever it stands. */
  lemma SpanOfLength(data: seq<byte>, offset: nat, kind: byte, body: seq<byte>)
    requires kind <= 8 && WithLength(kind, body).Success? && StandsAt(data, offset, WithLength(kind, body).value)
    ensures offset < |data| && data[offset] / 8 == kind
    ensures var bytes := WithLength(kind, body).value;
            && ValueSpan(data, offset + 1, kind, data[offset] % 8) == Some((offset + |bytes| - |body|, |body|))
            && StandsAt(data, offset + |bytes| - |body|, body) && |bytes| > |body|
  {
    hide StandsAt, ToBe, FromBe, Pow256;
    var n := if |body| <= 0xFF then 1 else if |body| <= 0xFFFF then 2 else 4;
    var index: byte := if n == 1 then 5 else if n == 2 then 6 else 7;
    var length := ToBe(|body|, n);
    assert WithLength(kind, body).value == [8 * kind + index] + length + body;
    StandsApart(data, offset, [8 * kind + index] + length, body);
    StandsApart(data, offset, [8 * kind + index], length);
    StandsFirst(data, offset, [8 * kind + index]);
    Pow256Values();
    BeRoundTrip(|body|, n);
    StandsWithin(data, offset + 1, length);
    assert data[offset + 1..offset + 1 + n] == length by { StandsThere(data, offset + 1, length); }
  }

  lemma ReversedTwice(data: seq<byte>)
    ensures Reversed(Reversed(data)) == data
  {
  }

  /** An element with a fixed size is read back wherever it stands. */
  lemma FixedRoundTrip(data: seq<byte>, offset: nat, kind: nat, value: seq<byte>, e: Element)
    requires 1 <= kind <= 3 && FixedSize(|value|) && Leaf(kind, value) == Some(e)
    requires StandsAt(data, offset, [8 * kind + SizeIndex(|value|)] + value)
    ensures forall depth: nat :: ParseAt(data, offset, depth) == Success((offset + 1 + |value|, e))
  {
    hide Leaf;
    StandsApart(data, offset, [8 * kind + SizeIndex(|value|)], value);
    assert data[offset] == 8 * kind + SizeIndex(|value|);
  }

  /**
    * Every encodable element, wherever its bytes stand and whatever surrounds them, parses back to itself and to
    * the exact end, if and only if its containers nest no deeper than the parser allows from there.
    */
  lemma {:induction false} RoundTripInContext(e: Element, data: seq<byte>, offset: nat, depth: nat)
    requires Encode(e).Success? && ValidText(e) && StandsAt(data, offset, Encode(e).value)
    ensures depth + Depth(e) <= MAX_NESTING || Depth(e) == 0 ==>
              ParseAt(data, offset, depth) == Success((offset + |Encode(e).value|, e))
    ensures depth + Depth(e) > MAX_NESTING && Depth(e) > 0 ==> ParseAt(data, offset, depth).Failure?
    decreases e
  {
    hide ParseAt, Leaf, WithLength, Utf8, FixedSize, SignedFits, DepthOf, EncodeItems, ValidTexts, StandsAt, UuidSize,
         ToBe;
    match e
    case Nil => NilRoundTrip(data, offset);
    case Unsigned(value, size) =>
      UnsignedRoundTrip(value, size, data, offset);
    case Signed(number, size) => SignedElementRoundTrip(number, size, data, offset);
    case Uuid(uuid) => UuidRoundTrip(uuid, data, offset);
    case Text(text) => LeafRoundTrip(e, data, offset, 4, text);
    case Boolean(flag) => BooleanRoundTrip(flag, data, offset);
    case Sequence(elements) => ContainerRoundTrip(e, data, offset, depth);
    case Alternative(elements) => ContainerRoundTrip(e, data, offset, depth);
    case Url(url) => LeafRoundTrip(e, data, offset, 8, url);
  }

  lemma NilRoundTrip(data: seq<byte>, offset: nat)
    requires StandsAt(data, offset, [0x00])
    ensures forall depth: nat :: ParseAt(data, offset, depth) == Success((offset + 1, Nil))
  {
    assert data[offset..offset + 1][0] == data[offset];
  }

  lemma UnsignedRoundTrip(value: nat, size: byte, data: seq<byte>, offset: nat)
    requires FixedSize(size) && value < Pow256(size)
             && StandsAt(data, offset, [0x08 + SizeIndex(size)] + ToBe(value, size))
    ensures forall depth: nat ::
            ParseAt(data, offset, depth) == Success((offset + 1 + size as nat, Unsigned(value, size)))
  {
    hide ParseAt, StandsAt, ToBe, FromBe, Pow256;
    BeRoundTrip(value, size);
    UnsignedIsExact(ToBe(value, size));
    hide DecodeUnsigned;
    FixedRoundTrip(data, offset, 1, ToBe(value, size), Unsigned(value, size));
  }

  lemma SignedElementRoundTrip(number: i128, size: byte, data: seq<byte>, offset: nat)
    requires FixedSize(size) && SignedFits(number, size)
    requires StandsAt(data, offset, [0x10 + SizeIndex(size)] + ToBe(TwosComplement(number, size), size))
    ensures forall depth: nat ::
            ParseAt(data, offset, depth) == Success((offset + 1 + size as nat, Signed(number, size)))
  {
    hide ParseAt, StandsAt, ToBe, Pow256, DecodeSigned;
    SignedRoundTrip(number, size);
    FixedRoundTrip(data, offset, 2, ToBe(TwosComplement(number, size), size), Signed(number, size));
  }

  lemma UuidRoundTrip(uuid: seq<byte>, data: seq<byte>, offset: nat)
    requires UuidSize(|uuid|) && StandsAt(data, offset, [0x18 + SizeIndex(|uuid|)] + Reversed(uuid))
    ensures forall depth: nat :: ParseAt(data, offset, depth) == Success((offset + 1 + |uuid|, Uuid(uuid)))
  {
    ReversedTwice(uuid);
    FixedRoundTrip(data, offset, 3, Reversed(uuid), Uuid(uuid));
  }

  lemma BooleanRoundTrip(flag: bool, data: seq<byte>, offset: nat)
    requires StandsAt(data, offset, [0x28, if flag then 1 else 0])
    ensures forall depth: nat :: ParseAt(data, offset, depth) == Success((offset + 2, Boolean(flag)))
  {
    StandsApart(data, offset, [0x28], [if flag then 1 else 0]);
    assert data[offset] == 0x28;
  }

  lemma LeafRoundTrip(e: Element, data: seq<byte>, offset: nat, kind: byte, body: seq<byte>)
    requires (kind == 4 && e == Text(body)) || (kind == 8 && e == Url(body) && Utf8(body))
    requires WithLength(kind, body).Success? && StandsAt(data, offset, WithLength(kind, body).value)
    ensures forall depth: nat :: ParseAt(data, offset, depth) == Success((offset + |WithLength(kind, body).value|, e))
  {
    SpanOfLength(data, offset, kind, body);
    hide WithLength, ValueSpan, Utf8;
  }

  lemma {:induction false} ContainerRoundTrip(e: Element, data: seq<byte>, offset: nat, depth: nat)
    requires e.Sequence? || e.Alternative?
    requires Encode(e).Success? && ValidText(e) && StandsAt(data, offset, Encode(e).value)
    ensures depth + Depth(e) <= MAX_NESTING ==> ParseAt(data, offset, depth) == Success((offset + |Encode(e).value|, e))
    ensures depth + Depth(e) > MAX_NESTING ==> ParseAt(data, offset, depth).Failure?
    decreases e, 0
  {
    hide WithLength, ValueSpan, ParseAt, ParseItems, StandsAt, EncodeItems, Encode, Depth, ValidText;
    ContainerShape(e);
    var body := EncodeItems(e.elements).value;
    var kind: byte := if e.Sequence? then 6 else 7;
    SpanOfLength(data, offset, kind, body);
    var start := offset + |Encode(e).value| - |body|;
    ItemsRoundTrip(e.elements, data, start, depth + 1);
    StandsWithin(data, start, body);
    ParseOfContainer(data, offset, depth, start, |body|);
  }

  lemma ContainerShape(e: Element)
    requires (e.Sequence? || e.Alternative?) && Encode(e).Success? && ValidText(e)
    ensures Depth(e) == 1 + DepthOf(e.elements) && ValidTexts(e.elements) && EncodeItems(e.elements).Success?
    ensures Encode(e) == WithLength(if e.Sequence? then 6 else 7, EncodeItems(e.elements).value)
  {
    hide WithLength, EncodeItems, DepthOf, ValidTexts;
  }

  lemma ParseOfContainer(data: seq<byte>, offset: nat, depth: nat, start: nat, size: nat)
    requires offset < |data| && (data[offset] / 8 == 6 || data[offset] / 8 == 7) && start + size <= |data|
    requires ValueSpan(data, offset + 1, data[offset] / 8, data[offset] % 8) == Some((start, size))
    ensures depth >= MAX_NESTING ==> ParseAt(data, offset, depth).Failure?
    ensures var items := ParseItems(data, start, start + size, depth + 1);
            depth < MAX_NESTING ==>
              ParseAt(data, offset, depth)
              == (if items.Failure? then Failure(items.error)
                  else Success((start + size,
                                if data[offset] / 8 == 6 then Sequence(items.value) else Alternative(items.value))))
  {
    hide ValueSpan, Leaf, ParseItems;
  }

  /** The elements of a container, one after the other. */
  lemma {:induction false} ItemsRoundTrip(elements: seq<Element>, data: seq<byte>, pos: nat, depth: nat)
    requires EncodeItems(elements).Success? && ValidTexts(elements) && StandsAt(data, pos, EncodeItems(elements).value)
    ensures var end := pos + |EncodeItems(elements).value|;
            && (depth + DepthOf(elements) <= MAX_NESTING || DepthOf(elements) == 0 ==>
                  ParseItems(data, pos, end, depth) == Success(elements))
            && (depth + DepthOf(elements) > MAX_NESTING && DepthOf(elements) > 0 ==>
                ParseItems(data, pos, end, depth).Failure?)
    decreases elements
  {
    hide ParseAt, ParseItems, StandsAt, Encode, Depth, ValidText, EncodeItems, DepthOf, ValidTexts;
    if elements == [] {
      NoItems(data, pos, depth);
    } else {
      ItemsShape(elements);
      var first, rest := Encode(elements[0]).value, EncodeItems(elements[1..]).value;
      var end := pos + |first + rest|;
      StandsApart(data, pos, first, rest);
      RoundTripInContext(elements[0], data, pos, depth);
      ItemsRoundTrip(elements[1..], data, pos + |first|, depth);
      EncodedIsNotEmpty(elements[0]);
      assert end <= |data| by { StandsWithin(data, pos, first + rest); }
      ItemsStep(data, pos, end, depth);
      assert [elements[0]] + elements[1..] == elements;
    }
  }

  lemma NoItems(data: seq<byte>, pos: nat, depth: nat)
    ensures EncodeItems([]) == Success([]) && DepthOf([]) == 0
    ensures pos <= |data| ==> ParseItems(data, pos, pos, depth) == Success([])
    ensures StandsAt(data, pos, []) ==> pos <= |data|
  {
  }

  lemma StandsWithin(data: seq<byte>, offset: nat, bytes: seq<byte>)
    requires StandsAt(data, offset, bytes)
    ensures offset + |bytes| <= |data|
  {
  }

  lemma ItemsStep(data: seq<byte>, pos: nat, end: nat, depth: nat)
    requires pos < end <= |data|
    ensures var first := ParseAt(data, pos, depth);
            ParseItems(data, pos, end, depth)
            == if first.Failure?
                then Failure(first.error) else After([first.value.1], ParseItems(data, first.value.0, end, depth))
  {
    hide ParseAt;
  }

  lemma ItemsShape(elements: seq<Element>)
    requires elements != [] && EncodeItems(elements).Success? && ValidTexts(elements)
    ensures Encode(elements[0]).Success? && EncodeItems(elements[1..]).Success?
    ensures EncodeItems(elements).value == Encode(elements[0]).value + EncodeItems(elements[1..]).value
    ensures DepthOf(elements) == Max(Depth(elements[0]), DepthOf(elements[1..]))
    ensures ValidText(elements[0]) && ValidTexts(elements[1..])
  {
    hide Encode, Depth, ValidText;
  }

  lemma EncodedIsNotEmpty(e: Element)
    requires Encode(e).Success?
    ensures |Encode(e).value| > 0
  {
  }

  // ---------------------------------------------------------------------------
  // Arbitrary bytes
  // ---------------------------------------------------------------------------

  /** Whatever the bytes: parsing ends, a success consumed something, stays in bounds and is nested within the limit. */
  lemma {:induction false} ParserIsSound(data: seq<byte>, offset: nat, depth: nat)
    requires ParseAt(data, offset, depth).Success?
    ensures var (end, e) := ParseAt(data, offset, depth).value;
            offset < end <= |data| && ValidText(e) && (depth + Depth(e) <= MAX_NESTING || Depth(e) == 0)
    decreases |data| - offset, 0
  {
    var kind, index := data[offset] / 8, data[offset] % 8;
    var span := ValueSpan(data, offset + 1, kind, index);
    if kind == 6 || kind == 7 { ItemsAreSound(data, span.value.0, span.value.0 + span.value.1, depth + 1); }
  }

  lemma {:induction false} ItemsAreSound(data: seq<byte>, pos: nat, end: nat, depth: nat)
    requires end <= |data| && ParseItems(data, pos, end, depth).Success? && depth <= MAX_NESTING
    ensures var elements := ParseItems(data, pos, end, depth).value;
            ValidTexts(elements) && depth + DepthOf(elements) <= MAX_NESTING
    decreases |data| - pos, 1
  {
    if pos < end {
      ParserIsSound(data, pos, depth);
      var first := ParseAt(data, pos, depth).value;
      ItemsAreSound(data, first.0, end, depth);
      var rest := ParseItems(data, first.0, end, depth).value;
      assert ([first.1] + rest)[1..] == rest;
    }
  }

  // The value of an element with a length header, cut off after `n` bytes.
  lemma CutLengthFails(kind: byte, body: seq<byte>, whole: seq<byte>, offset: nat, n: nat, depth: nat)
    requires kind <= 8 && WithLength(kind, body).Success? && StandsAt(whole, offset, WithLength(kind, body).value)
    requires offset < n < offset + |WithLength(kind, body).value|
    ensures ParseAt(whole[..n], offset, depth).Failure?
  {
    hide Leaf, ParseItems;
    var data := whole[..n];
    SpanOfLength(whole, offset, kind, body);
    assert data[offset] == whole[offset];
    var span := ValueSpan(data, offset + 1, data[offset] / 8, data[offset] % 8);
    if span.Some? {
      var k := if data[offset] % 8 == 5 then 1 else if data[offset] % 8 == 6 then 2 else 4;
      assert data[offset + 1..offset + 1 + k] == whole[offset + 1..offset + 1 + k];
    }
  }

  // The value of an element of a fixed width, cut off after `n` bytes.
  lemma CutFixedFails(header: byte, value: seq<byte>, whole: seq<byte>, offset: nat, n: nat, depth: nat)
    requires StandsAt(whole, offset, [header] + value) && offset < n <= offset + |value|
    requires header / 8 != 0 && header % 8 < 5
    requires |value| == (if header % 8 == 0 then 1 else if header % 8 == 1 then 2 else if header % 8 == 2 then 4
                         else if header % 8 == 3 then 8 else 16)
    ensures ParseAt(whole[..n], offset, depth).Failure?
  {
    hide Leaf, ParseItems;
    var data, bytes := whole[..n], [header] + value;
    assert data[offset] == whole[offset] == whole[offset..offset + |bytes|][0] == header;
  }

  /** An element whose end is cut off, wherever it stands and whatever it is, is refused. */
  lemma CutElementFails(e: Element, whole: seq<byte>, offset: nat, n: nat, depth: nat)
    requires Encode(e).Success? && StandsAt(whole, offset, Encode(e).value) && offset <= n < offset + |Encode(e).value|
    ensures ParseAt(whole[..n], offset, depth).Failure?
  {
    hide ParseAt, WithLength, Pow256, ToBe, EncodeItems, TwosComplement;
    if n == offset {
      NothingFails(whole[..n], depth);
    } else {
      match e
      case Nil =>
      case Unsigned(value, size) => CutFixedFails(0x08 + SizeIndex(size), ToBe(value, size), whole, offset, n, depth);
      case Signed(number, size) =>
        CutFixedFails(0x10 + SizeIndex(size), ToBe(TwosComplement(number, size), size), whole, offset, n, depth);
      case Uuid(uuid) => CutFixedFails(0x18 + SizeIndex(|uuid|), Reversed(uuid), whole, offset, n, depth);
      case Text(text) => CutLengthFails(4, text, whole, offset, n, depth);
      case Boolean(flag) =>
        assert [0x28] + [if flag then 1 else 0] == [0x28, if flag then 1 else 0];
        CutFixedFails(0x28, [if flag then 1 else 0], whole, offset, n, depth);
      case Sequence(elements) => CutLengthFails(6, EncodeItems(elements).value, whole, offset, n, depth);
      case Alternative(elements) => CutLengthFails(7, EncodeItems(elements).value, whole, offset, n, depth);
      case Url(url) => CutLengthFails(8, url, whole, offset, n, depth);
    }
  }

  lemma NothingFails(data: seq<byte>, depth: nat)
    ensures ParseAt(data, |data|, depth).Failure?
  {
  }
}
