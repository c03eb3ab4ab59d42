/**
  * The frame check sequence of L2CAP: CRC-16 computed bit by bit, appended to and
  * checked on ERTM frames. A frame verifies exactly when the CRC of the whole
  * frame is zero, and any change confined to two adjacent bytes of a verified
  * frame, whether payload or FCS, is rejected.
  */
module Fcs {
  import opened Bytes

  // ---------------------------------------------------------------------------
  // Exclusive or on natural numbers
  // ---------------------------------------------------------------------------

  function Xor(a: nat, b: nat): nat {
    if a == 0 && b == 0 then 0 else (a + b) % 2 + 2 * Xor(a / 2, b / 2)
  }

  lemma Halves(r: nat, m: nat)
    requires r < 2
    ensures (r + 2 * m) % 2 == r && (r + 2 * m) / 2 == m
  {
  }

  lemma {:induction false} XorBits(a: nat, b: nat)
    ensures Xor(a, b) % 2 == (a + b) % 2 && Xor(a, b) / 2 == Xor(a / 2, b / 2)
  {
    if a > 0 || b > 0 { Halves((a + b) % 2, Xor(a / 2, b / 2)); }
  }

  lemma ParityOfSum(a: nat, b: nat, c: nat, ab: nat, bc: nat)
    requires ab % 2 == (a + b) % 2 && bc % 2 == (b + c) % 2
    ensures (ab + c) % 2 == (a + bc) % 2
  {
  }

  lemma {:induction false} XorNothing(a: nat)
    ensures Xor(a, 0) == a && Xor(0, a) == a
  {
    if a > 0 { XorNothing(a / 2); }
  }

  lemma {:induction false} XorSelf(a: nat)
    ensures Xor(a, a) == 0
  {
    if a > 0 { XorSelf(a / 2); }
  }

  lemma {:induction false} XorCommutes(a: nat, b: nat)
    ensures Xor(a, b) == Xor(b, a)
  {
    if a > 0 || b > 0 { XorCommutes(a / 2, b / 2); }
  }

  lemma SameBits(u: nat, v: nat)
    requires u % 2 == v % 2 && u / 2 == v / 2
    ensures u == v
  {
  }

  lemma {:induction false} XorAssociates(a: nat, b: nat, c: nat)
    ensures Xor(Xor(a, b), c) == Xor(a, Xor(b, c))
  {
    hide Xor;
    if a == 0 && b == 0 && c == 0 {
      XorNothing(0);
    } else {
      var ab, bc := Xor(a, b), Xor(b, c);
      XorBits(a, b);
      XorBits(b, c);
      XorBits(ab, c);
      XorBits(a, bc);
      XorAssociates(a / 2, b / 2, c / 2);
      ParityOfSum(a, b, c, ab, bc);
      SameBits(Xor(ab, c), Xor(a, bc));
    }
  }

  lemma {:induction false} XorIsZero(a: nat, b: nat)
    requires Xor(a, b) == 0
    ensures a == b
  {
    if a > 0 || b > 0 { XorIsZero(a / 2, b / 2); }
  }

  /** The common term of two sums cancels. */
  lemma XorCancels(a: nat, b: nat, c: nat)
    ensures Xor(Xor(a, b), Xor(a, c)) == Xor(b, c)
  {
    XorCommutes(a, b);
    XorAssociates(b, a, Xor(a, c));
    XorAssociates(a, a, c);
    XorSelf(a);
    XorNothing(c);
  }

  /** Equal sums with different parts: the differences agree. */
  lemma XorMovesAcross(p: nat, b: nat, q: nat, d: nat)
    requires Xor(p, b) == Xor(q, d)
    ensures Xor(p, q) == Xor(b, d)
  {
    XorCommutes(p, b);
    XorCommutes(q, d);
    XorCancels(p, b, q);
    XorSelf(Xor(p, b));
    XorAssociates(b, p, q);
    XorAssociates(d, q, q);
    XorSelf(q);
    XorNothing(d);
    // b ^ (p ^ q) = (b ^ p) ^ q = (d ^ q) ^ q = d
    assert Xor(b, Xor(p, q)) == d;
    XorAssociates(b, b, Xor(p, q));
    XorSelf(b);
    XorNothing(Xor(p, q));
  }

  function Pow2(n: nat): (r: nat)
    ensures r > 0
  {
    if n == 0 then 1 else 2 * Pow2(n - 1)
  }

  lemma {:induction false} XorBelow(a: nat, b: nat, n: nat)
    requires a < Pow2(n) && b < Pow2(n)
    ensures Xor(a, b) < Pow2(n)
  {
    if n > 0 { XorBelow(a / 2, b / 2, n - 1); }
  }

  lemma {:induction false} XorTopBit(a: nat, b: nat, n: nat)
    requires a < Pow2(n) <= b < 2 * Pow2(n)
    ensures Pow2(n) <= Xor(a, b) < 2 * Pow2(n)
  {
    if n > 0 { XorTopBit(a / 2, b / 2, n - 1); } else { XorNothing(b); }
  }

  lemma DoubleTerm(p: nat, h: nat, m: nat)
    requires m == p * h
    ensures (2 * p) * h == 2 * m
  {
  }

  lemma XorClearsOne(m: nat, l: nat, x: nat)
    requires x % 2 == (2 * m + l + l) % 2 && x / 2 == m
    ensures x == 2 * m
  {
  }

  /** Low bits that agree cancel and leave the high bits. */
  lemma {:induction false} XorClearsLow(h: nat, l: nat, n: nat)
    requires l < Pow2(n)
    ensures Xor(Pow2(n) * h + l, l) == Pow2(n) * h
  {
    if n == 0 {
      XorNothing(h);
    } else {
      var p := Pow2(n - 1);
      var m := p * h;
      DoubleTerm(p, h, m);
      XorClearsLow(h, l / 2, n - 1);
      hide Xor, Pow2;
      XorBits(2 * m + l, l);
      assert (2 * m + l) / 2 == m + l / 2;
      XorClearsOne(m, l, Xor(2 * m + l, l));
    }
  }

  lemma Powers()
    ensures Pow2(7) == 0x80 && Pow2(8) == 0x100 && Pow2(15) == 0x8000 && Pow2(16) == 0x1_0000
  {
    assert Pow2(4) == 16;
    assert Pow2(8) == 16 * Pow2(4);
    assert Pow2(12) == 16 * Pow2(8);
  }

  // ---------------------------------------------------------------------------
  // The CRC register
  // ---------------------------------------------------------------------------

  // One division step.
  function Shift(crc: nat): nat { if crc % 2 == 1 then Xor(crc / 2, 0xA001) else crc / 2 }

  function Shifts(crc: nat, n: nat): nat
    decreases n
  {
    if n == 0 then crc else Shifts(Shift(crc), n - 1)
  }

  lemma ShiftBelow(crc: nat)
    requires crc < 0x1_0000
    ensures Shift(crc) < 0x1_0000
    ensures crc % 2 == 1 <==> Shift(crc) >= 0x8000
  {
    Powers();
    XorTopBit(crc / 2, 0xA001, 15);
  }

  lemma {:induction false} ShiftsBelow(crc: nat, n: nat)
    requires crc < 0x1_0000
    ensures Shifts(crc, n) < 0x1_0000
    decreases n
  {
    if n > 0 { ShiftBelow(crc); ShiftsBelow(Shift(crc), n - 1); }
  }

  lemma XorInsideOrOutside(h: nat, k: nat, c: nat)
    ensures Xor(Xor(h, c), k) == Xor(Xor(h, k), c) == Xor(h, Xor(k, c))
    ensures Xor(Xor(h, c), Xor(k, c)) == Xor(h, k)
  {
    hide Xor;
    XorAssociates(h, c, k);
    XorCommutes(c, k);
    XorAssociates(h, k, c);
    XorCommutes(h, c);
    XorCancels(c, h, k);
  }

  /** The division step is linear. */
  lemma ShiftLinear(x: nat, y: nat)
    ensures Shift(Xor(x, y)) == Xor(Shift(x), Shift(y))
  {
    hide Xor;
    XorBits(x, y);
    XorInsideOrOutside(x / 2, y / 2, 0xA001);
  }

  lemma {:induction false} ShiftsLinear(x: nat, y: nat, n: nat)
    ensures Shifts(Xor(x, y), n) == Xor(Shifts(x, n), Shifts(y, n))
    decreases n
  {
    if n > 0 {
      ShiftLinear(x, y);
      ShiftsLinear(Shift(x), Shift(y), n - 1);
    }
  }

  /** The division step loses nothing: the bit it drops reappears at the top. */
  lemma ShiftInjective(x: nat, y: nat)
    requires x < 0x1_0000 && y < 0x1_0000 && Shift(x) == Shift(y)
    ensures x == y
  {
    ShiftBelow(x);
    ShiftBelow(y);
    if x % 2 == 1 {
      XorMovesAcross(x / 2, 0xA001, y / 2, 0xA001);
      XorSelf(0xA001);
      XorIsZero(x / 2, y / 2);
    }
  }

  lemma {:induction false} ShiftsInjective(x: nat, y: nat, n: nat)
    requires x < 0x1_0000 && y < 0x1_0000 && Shifts(x, n) == Shifts(y, n)
    ensures x == y
    decreases n
  {
    if n > 0 {
      ShiftBelow(x);
      ShiftBelow(y);
      ShiftsInjective(Shift(x), Shift(y), n - 1);
      ShiftInjective(x, y);
    }
  }

  /** A register above 2^k is still above 2^(k-n) after n steps. */
  lemma {:induction false} ShiftsStayHigh(crc: nat, k: nat, n: nat)
    requires Pow2(k) <= crc < 0x1_0000 && n <= k <= 15
    ensures Shifts(crc, n) >= Pow2(k - n)
    decreases n
  {
    if n > 0 {
      ShiftBelow(crc);
      Powers();
      assert Pow2(k) == 2 * Pow2(k - 1);
      PowMonotone(k - 1, 15);
      ShiftsStayHigh(Shift(crc), k - 1, n - 1);
    }
  }

  lemma {:induction false} PowMonotone(m: nat, n: nat)
    requires m <= n
    ensures Pow2(m) <= Pow2(n)
  {
    if m < n { PowMonotone(m, n - 1); }
  }

  /** Within n steps, any nonzero bit among the low n has reached the top and is still in the upper half. */
  lemma {:induction false} LowBitsReachHigh(u: nat, n: nat)
    requires 0 < u < Pow2(n) && n <= 8
    ensures Shifts(u, n) >= Pow2(8)
  {
    PowMonotone(n, 8);
    Powers();
    if u % 2 == 1 {
      ShiftBelow(u);
      ShiftsStayHigh(Shift(u), 15, n - 1);
      PowMonotone(8, 15 - (n - 1));
    } else {
      LowBitsReachHigh(u / 2, n - 1);
    }
  }

  lemma {:induction false} ShiftsOfMultiple(h: nat, n: nat)
    ensures Shifts(Pow2(n) * h, n) == h
  {
    if n > 0 {
      assert Pow2(n) * h == 2 * (Pow2(n - 1) * h);
      ShiftsOfMultiple(h, n - 1);
    }
  }

  // A byte's effect on the register.
  function Step(crc: nat, b: byte): nat { Shifts(Xor(crc, b), 8) }

  function Register(crc: nat, data: seq<byte>): nat
    decreases |data|
  {
    if data == [] then crc else Register(Step(crc, data[0]), data[1..])
  }

  lemma StepBelow(crc: nat, b: byte)
    requires crc < 0x1_0000
    ensures Xor(crc, b) < 0x1_0000 && Step(crc, b) < 0x1_0000
  {
    Powers();
    XorBelow(crc, b, 16);
    ShiftsBelow(Xor(crc, b), 8);
  }

  lemma {:induction false} RegisterBelow(crc: nat, data: seq<byte>)
    requires crc < 0x1_0000
    ensures Register(crc, data) < 0x1_0000
    decreases |data|
  {
    if data != [] {
      StepBelow(crc, data[0]);
      RegisterBelow(Step(crc, data[0]), data[1..]);
    }
  }

  // The CRC of a message: its effect on a zero register.
  function Crc(data: seq<byte>): u16 {
    RegisterBelow(0, data);
    Register(0, data)
  }

  lemma {:induction false} RegisterConcat(crc: nat, s: seq<byte>, t: seq<byte>)
    ensures Register(crc, s + t) == Register(Register(crc, s), t)
    decreases |s|
  {
    if s == [] {
      assert s + t == t;
    } else {
      assert (s + t)[1..] == s[1..] + t;
      RegisterConcat(Step(crc, s[0]), s[1..], t);
    }
  }

  lemma RegisterOne(crc: nat, s: seq<byte>, b: byte)
    ensures Register(crc, s + [b]) == Step(Register(crc, s), b)
  {
    hide Step;
    RegisterConcat(crc, s, [b]);
    assert [b][1..] == [];
  }

  lemma {:induction false} ShiftsOneMore(crc: nat, n: nat)
    ensures Shifts(crc, n + 1) == Shift(Shifts(crc, n))
    decreases n
  {
    if n > 0 { ShiftsOneMore(Shift(crc), n - 1); }
  }

  // The inner loop of `crc_16`: eight division steps, each branching on the bit it drops.
  method ShiftEight(crc: u16) returns (r: u16)
    ensures r == Shifts(crc, 8)
  {
    r := crc;
    for k := 0 to 8
      invariant r == Shifts(crc, k)
    {
      ShiftsOneMore(crc, k);
      ShiftBelow(r);
      if r % 2 != 0 {
        r := Xor(r / 2, 0xA001);
      } else {
        r := r / 2;
      }
    }
  }

  /** `crc_16` computes the CRC. */
  method Crc16(data: seq<byte>) returns (crc: u16)
    ensures crc == Crc(data)
  {
    hide Xor, Shifts;
    crc := 0;
    for i := 0 to |data|
      invariant crc == Register(0, data[..i])
    {
      RegisterOne(0, data[..i], data[i]);
      assert data[..i + 1] == data[..i] + [data[i]];
      StepBelow(crc, data[i]);
      crc := ShiftEight(Xor(crc, data[i]));
    }
    assert data[..|data|] == data;
  }

  // ---------------------------------------------------------------------------
  // What the register tells apart
  // ---------------------------------------------------------------------------

  lemma StepInjective(x: nat, y: nat, b: byte)
    requires x < 0x1_0000 && y < 0x1_0000 && Step(x, b) == Step(y, b)
    ensures x == y
  {
    hide Xor;
    StepBelow(x, b);
    StepBelow(y, b);
    ShiftsInjective(Xor(x, b), Xor(y, b), 8);
    XorMovesAcross(x, b, y, b);
    XorSelf(b);
    XorIsZero(x, y);
  }

  /** Different registers stay different, whatever bytes follow. */
  lemma {:induction false} RegisterInjective(x: nat, y: nat, data: seq<byte>)
    requires x < 0x1_0000 && y < 0x1_0000 && Register(x, data) == Register(y, data)
    ensures x == y
    decreases |data|
  {
    hide Step;
    if data != [] {
      StepBelow(x, data[0]);
      StepBelow(y, data[0]);
      RegisterInjective(Step(x, data[0]), Step(y, data[0]), data[1..]);
      StepInjective(x, y, data[0]);
    }
  }

  /** Two bytes are determined by the register before and after them. */
  lemma TwoBytesInjective(crc: nat, a: byte, b: byte, c: byte, d: byte)
    requires crc < 0x1_0000 && Step(Step(crc, a), b) == Step(Step(crc, c), d)
    ensures a == c && b == d
  {
    hide Xor, Shifts;
    var p, q := Step(crc, a), Step(crc, c);
    StepBelow(crc, a);
    StepBelow(crc, c);
    StepBelow(p, b);
    StepBelow(q, d);
    ShiftsInjective(Xor(p, b), Xor(q, d), 8);
    XorMovesAcross(p, b, q, d);
    ShiftsLinear(Xor(crc, a), Xor(crc, c), 8);
    XorCancels(crc, a, c);
    assert Shifts(Xor(a, c), 8) == Xor(b, d);
    Powers();
    XorBelow(a, c, 8);
    XorBelow(b, d, 8);
    if Xor(a, c) != 0 {
      LowBitsReachHigh(Xor(a, c), 8);
    }
    XorIsZero(a, c);
    XorSelf(p);
    XorIsZero(b, d);
  }

  /** The CRC's own two bytes bring the register to zero. */
  lemma OwnBytesClear(crc: u16)
    ensures Step(Step(crc, crc % 0x100), crc / 0x100) == 0
  {
    hide Xor, Shifts;
    var h, l := crc / 0x100, crc % 0x100;
    Powers();
    XorClearsLow(h, l, 8);
    ShiftsOfMultiple(h, 8);
    XorSelf(h);
    ShiftsOfMultiple(0, 8);
  }

  /** Appending two bytes clears the register exactly when they are the CRC, low byte first. */
  lemma ClearedExactlyByCrc(data: seq<byte>, a: byte, b: byte)
    ensures Register(0, data + [a, b]) == 0 <==> [a, b] == Le16(Crc(data))
  {
    hide Step;
    var crc := Crc(data);
    RegisterOne(0, data, a);
    RegisterOne(0, data + [a], b);
    assert data + [a] + [b] == data + [a, b];
    OwnBytesClear(crc);
    if Register(0, data + [a, b]) == 0 {
      TwoBytesInjective(crc, a, b, crc % 0x100, crc / 0x100);
    }
  }

  // ---------------------------------------------------------------------------
  // Frames
  // ---------------------------------------------------------------------------

  datatype FcsError = FrameTooLarge | MissingFcs | InvalidFcs

  // The basic header the CRC covers together with the frame.
  function Header(length: u16, cid: u16): seq<byte> { Le16(length) + Le16(cid) }

  function AppendFcs(cid: u16, payload: seq<byte>): Result<seq<byte>, FcsError> {
    if |payload| + 2 >= 0x1_0000 then Failure(FrameTooLarge)
    else Success(payload + Le16(Crc(Header(|payload| + 2, cid) + payload)))
  }

  function VerifyAndStripFcs(cid: u16, payload: seq<byte>): Result<seq<byte>, FcsError> {
    if |payload| < 2 then Failure(MissingFcs)
    else if |payload| >= 0x1_0000 then Failure(FrameTooLarge)
    else
      var split := |payload| - 2;
      var expected := FromLe16(payload[split], payload[split + 1]);
      if Crc(Header(|payload|, cid) + payload[..split]) != expected then Failure(InvalidFcs)
      else Success(payload[..split])
  }

  /** A frame verifies exactly when its own CRC, header included, is zero. */
  lemma VerifiesExactlyWhenClear(cid: u16, frame: seq<byte>)
    requires 2 <= |frame| < 0x1_0000
    ensures VerifyAndStripFcs(cid, frame)
            == if Crc(Header(|frame|, cid) + frame) == 0 then Success(frame[..|frame| - 2]) else Failure(InvalidFcs)
  {
    hide Register;
    var split := |frame| - 2;
    var checked := Header(|frame|, cid) + frame[..split];
    var a, b := frame[split], frame[split + 1];
    assert Header(|frame|, cid) + frame == checked + [a, b];
    ClearedExactlyByCrc(checked, a, b);
  }

  /** Verification inverts appending, for every channel and every frame that fits. */
  lemma AppendThenVerify(cid: u16, payload: seq<byte>)
    ensures AppendFcs(cid, payload).Success? <==> |payload| <= 65533
    ensures AppendFcs(cid, payload).Success? ==>
              VerifyAndStripFcs(cid, AppendFcs(cid, payload).value) == Success(payload)
  {
    if AppendFcs(cid, payload).Success? {
      var frame := AppendFcs(cid, payload).value;
      assert frame[..|frame| - 2] == payload;
    }
  }

  /** Conversely, whatever verifies was produced by appending. */
  lemma VerifiedWasAppended(cid: u16, frame: seq<byte>)
    requires VerifyAndStripFcs(cid, frame).Success?
    ensures AppendFcs(cid, VerifyAndStripFcs(cid, frame).value) == Success(frame)
  {
    hide Crc, Le16, FromLe16;
    var payload := VerifyAndStripFcs(cid, frame).value;
    var split := |frame| - 2;
    Le16OfBytes(frame[split], frame[split + 1]);
    assert frame == payload + [frame[split], frame[split + 1]];
  }

  // `damaged` differs from `frame`, and only at positions i and i + 1.
  predicate DamagedAt(frame: seq<byte>, damaged: seq<byte>, i: nat) {
    && |damaged| == |frame| && damaged != frame && i + 1 < |frame|
    && damaged[..i] == frame[..i] && damaged[i + 2..] == frame[i + 2..]
  }

  /** Replacing two adjacent bytes of a message by different ones changes its register. */
  lemma RegisterTellsPairs(crc: nat, before: seq<byte>, a: byte, b: byte, c: byte, d: byte, after: seq<byte>)
    requires crc < 0x1_0000 && (a != c || b != d)
    ensures Register(crc, before + [a, b] + after) != Register(crc, before + [c, d] + after)
  {
    hide Step;
    var r := Register(crc, before);
    RegisterBelow(crc, before);
    RegisterConcat(crc, before + [a, b], after);
    RegisterConcat(crc, before + [c, d], after);
    RegisterOne(crc, before, a);
    RegisterOne(crc, before, c);
    RegisterOne(crc, before + [a], b);
    RegisterOne(crc, before + [c], d);
    assert before + [a] + [b] == before + [a, b] && before + [c] + [d] == before + [c, d];
    RegisterBelow(crc, before + [a, b]);
    RegisterBelow(crc, before + [c, d]);
    if Register(crc, before + [a, b] + after) == Register(crc, before + [c, d] + after) {
      RegisterInjective(Register(crc, before + [a, b]), Register(crc, before + [c, d]), after);
      TwoBytesInjective(r, a, b, c, d);
    }
  }

  /** Error detection: damage confined to two adjacent bytes, payload or FCS, is always rejected. */
  lemma DamageIsRejected(cid: u16, frame: seq<byte>, damaged: seq<byte>, i: nat)
    requires VerifyAndStripFcs(cid, frame).Success? && DamagedAt(frame, damaged, i)
    ensures VerifyAndStripFcs(cid, damaged) == Failure(InvalidFcs)
  {
    hide Register;
    var before, after := Header(|frame|, cid) + frame[..i], frame[i + 2..];
    var a, b, c, d := frame[i], frame[i + 1], damaged[i], damaged[i + 1];
    assert frame == frame[..i] + [a, b] + after && damaged == frame[..i] + [c, d] + after;
    assert Header(|frame|, cid) + frame == before + [a, b] + after;
    assert Header(|frame|, cid) + damaged == before + [c, d] + after;
    RegisterTellsPairs(0, before, a, b, c, d, after);
    VerifiesExactlyWhenClear(cid, frame);
    VerifiesExactlyWhenClear(cid, damaged);
  }

  /** In particular, altering any single byte of a frame made by `append_fcs` is detected. */
  lemma SingleByteErrorsAreDetected(cid: u16, payload: seq<byte>, i: nat, b: byte)
    requires |payload| <= 65533 && i < |payload| + 2
    requires AppendFcs(cid, payload).value[i] != b
    ensures VerifyAndStripFcs(cid, AppendFcs(cid, payload).value[i := b]) == Failure(InvalidFcs)
  {
    hide Crc;
    var frame := AppendFcs(cid, payload).value;
    var damaged := frame[i := b];
    AppendThenVerify(cid, payload);
    assert damaged[i] != frame[i];
    if i + 1 < |frame| {
      assert damaged[i + 2..] == frame[i + 2..] && damaged[..i] == frame[..i];
      DamageIsRejected(cid, frame, damaged, i);
    } else {
      assert damaged[i + 1..] == frame[i + 1..] && damaged[..i - 1] == frame[..i - 1];
      DamageIsRejected(cid, frame, damaged, i - 1);
    }
  }
}
