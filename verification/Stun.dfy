/** The STUN response walker: find the XOR-MAPPED-ADDRESS attribute of RFC 5389 (message header in
    section 6, attribute framing in section 15, the attribute itself in section 15.2). */
module Stun {
  import opened Numbers
  import opened Options

  newtype byte = x: int | 0 <= x < 256

  datatype Mapped = Mapped(a: byte, b: byte, c: byte, d: byte, port: nat)

  datatype Result = Found(mapped: Mapped) | ShortResponse | NotFound

  const HEADER := 20
  const XOR_MAPPED_ADDRESS := 0x0020
  const FAMILY_IPV4: byte := 0x01
  const COOKIE_HIGH := 0x2112

  // ---- exclusive or on naturals, bit by bit ----

  function Xor(a: nat, b: nat): nat
    decreases a + b
  {
    if a == 0 && b == 0 then 0 else (if a % 2 == b % 2 then 0 else 1) + 2 * Xor(a / 2, b / 2)
  }

  lemma {:induction false} XorBound(k: nat, a: nat, b: nat)
    requires a < Pow2(k) && b < Pow2(k)
    ensures Xor(a, b) < Pow2(k)
  {
    if k > 0 { XorBound(k - 1, a / 2, b / 2); }
  }

  lemma {:induction false} XorUndoesItself(a: nat, b: nat)
    ensures Xor(Xor(a, b), b) == a
    decreases a + b
  {
    if a > 0 || b > 0 {
      XorUndoesItself(a / 2, b / 2);
      var low, high := (if a % 2 == b % 2 then 0 else 1), Xor(a / 2, b / 2);
      assert Xor(a, b) == low + 2 * high;
      assert (low + 2 * high) / 2 == high && (low + 2 * high) % 2 == low;
    }
  }

  /** Bit `k` of `n`, the lowest being bit 0. */
  predicate Bit(n: nat, k: nat)
    decreases k
  {
    if k == 0 then n % 2 == 1 else Bit(n / 2, k - 1)
  }

  /** A bit of the exclusive or is set exactly when it is set in one argument and not in the other. */
  lemma {:induction false} XorBits(a: nat, b: nat, k: nat)
    ensures Bit(Xor(a, b), k) <==> Bit(a, k) != Bit(b, k)
    decreases k
  {
    if a == 0 && b == 0 {
      ZeroBits(k);
    } else {
      var low, high := (if a % 2 == b % 2 then 0 else 1), Xor(a / 2, b / 2);
      assert (low + 2 * high) / 2 == high && (low + 2 * high) % 2 == low;
      if k > 0 { XorBits(a / 2, b / 2, k - 1); }
    }
  }

  lemma {:induction false} ZeroBits(k: nat)
    ensures !Bit(0, k)
  {
    if k > 0 { ZeroBits(k - 1); }
  }

  /** The bits determine the number, so there is no other exclusive or. */
  lemma {:induction false} BitsDetermine(a: nat, b: nat)
    requires forall k: nat :: Bit(a, k) == Bit(b, k)
    ensures a == b
    decreases a + b
  {
    assert Bit(a, 0) == Bit(b, 0);
    if a > 0 || b > 0 {
      forall k: nat ensures Bit(a / 2, k) == Bit(b / 2, k) {
        assert Bit(a, k + 1) == Bit(b, k + 1);
      }
      BitsDetermine(a / 2, b / 2);
    }
  }

  function XorByte(a: byte, mask: byte): byte {
    Pow2Values();
    XorBound(8, a as nat, mask as nat);
    Xor(a as nat, mask as nat) as byte
  }

  lemma XorByteUndoesItself(a: byte, mask: byte)
    ensures XorByte(XorByte(a, mask), mask) == a
  {
    XorUndoesItself(a as nat, mask as nat);
  }

  function XorPort(port: nat): (r: nat)
    requires port < 65536
    ensures r < 65536
  {
    Pow2Values();
    XorBound(16, port, COOKIE_HIGH);
    Xor(port, COOKIE_HIGH)
  }

  function Uint16(high: byte, low: byte): (n: nat)
    ensures n < 65536
  {
    (high as nat) * 256 + (low as nat)
  }

  function PutUint16(n: nat): (r: seq<byte>)
    requires n < 65536
    ensures |r| == 2 && Uint16(r[0], r[1]) == n
  {
    [(n / 256) as byte, (n % 256) as byte]
  }

  lemma PutUint16OfUint16(high: byte, low: byte)
    ensures PutUint16(Uint16(high, low)) == [high, low]
  {
    var h, l := high as nat, low as nat;
    assert (h * 256 + l) / 256 == h && (h * 256 + l) % 256 == l;
  }

  // ---- the walker ----

  /** The bytes from `pos` on; a step over padding may land past the end. */
  function Unread(msg: seq<byte>, pos: nat): seq<byte> {
    if pos < |msg| then msg[pos..] else []
  }

  /** The unread bytes start with an attribute whose value is complete. */
  predicate Framed(rest: seq<byte>) {
    4 <= |rest| && 4 + Uint16(rest[2], rest[3]) <= |rest|
  }

  function Kind(rest: seq<byte>): nat
    requires Framed(rest)
  {
    Uint16(rest[0], rest[1])
  }

  function Length(rest: seq<byte>): nat
    requires Framed(rest)
  {
    Uint16(rest[2], rest[3])
  }

  function PadTo4(n: nat): nat {
    (n + 3) / 4 * 4
  }

  /** The attribute at the front answers: it is an IPv4 XOR-MAPPED-ADDRESS. */
  predicate Answers(rest: seq<byte>)
    requires Framed(rest)
  {
    Kind(rest) == XOR_MAPPED_ADDRESS && Length(rest) >= 8 && rest[5] == FAMILY_IPV4
  }

  function Decode(value: seq<byte>): Mapped
    requires |value| >= 8
  {
    Mapped(XorByte(value[4], 0x21), XorByte(value[5], 0x12), XorByte(value[6], 0xA4), XorByte(value[7], 0x42),
           XorPort(Uint16(value[2], value[3])))
  }

  /** The bytes from the value of the first attribute that answers on. */
  function Walk(rest: seq<byte>): (value: Option<seq<byte>>)
    ensures value.Some? ==> |value.value| >= 8
    decreases |rest|
  {
    if !Framed(rest) then None
    else if Answers(rest) then Some(rest[4..])
    else Walk(Unread(rest, 4 + PadTo4(Length(rest))))
  }

  function Parse(msg: seq<byte>): Result {
    if |msg| < HEADER then ShortResponse
    else match Walk(msg[HEADER..])
      case None => NotFound
      case Some(value) => Found(Decode(value))
  }

  lemma UnreadFurther(msg: seq<byte>, pos: nat, k: nat)
    ensures Unread(Unread(msg, pos), k) == Unread(msg, pos + k)
  {
    if pos + k < |msg| {
      assert msg[pos..][k..] == msg[pos + k..];
    }
  }

  lemma WalkEnds(rest: seq<byte>)
    requires !Framed(rest)
    ensures Walk(rest) == None
  {
  }

  lemma WalkAnswers(rest: seq<byte>)
    requires Framed(rest) && Answers(rest)
    ensures Walk(rest) == Some(rest[4..])
  {
  }

  lemma WalkStep(rest: seq<byte>, next: seq<byte>)
    requires Framed(rest) && !Answers(rest) && Unread(rest, 4 + PadTo4(Length(rest))) == next
    ensures Walk(rest) == Walk(next)
  {
  }

  /** What the walker finds from `pos` on, given the kind and the length it reads there and where the next
      attribute starts. */
  lemma WalkAt(msg: seq<byte>, pos: nat, kind: nat, length: nat, next: nat, found: Option<seq<byte>>)
    requires pos + 4 <= |msg| && kind == Uint16(msg[pos], msg[pos + 1]) && length == Uint16(msg[pos + 2], msg[pos + 3])
    requires next == pos + 4 + PadTo4(length) && found == Walk(Unread(msg, pos))
    ensures pos + 4 + length > |msg| ==> found == None
    ensures pos + 4 + length <= |msg| && kind == XOR_MAPPED_ADDRESS && length >= 8 && msg[pos + 5] == FAMILY_IPV4 ==>
              found == Some(msg[pos + 4..])
    ensures pos + 4 + length <= |msg| && !(kind == XOR_MAPPED_ADDRESS && length >= 8 && msg[pos + 5] == FAMILY_IPV4) ==>
              found == Walk(Unread(msg, next))
  {
    var rest := msg[pos..];
    assert Unread(msg, pos) == rest;
    if pos + 4 + length > |msg| {
      WalkEnds(rest);
    } else if Answers(rest) {
      WalkAnswers(rest);
      assert rest[4..] == msg[pos + 4..];
    } else {
      UnreadFurther(msg, pos, 4 + PadTo4(length));
      WalkStep(rest, Unread(msg, next));
    }
  }

  method MappedAt(msg: seq<byte>, pos: nat) returns (m: Mapped)
    requires pos + 8 <= |msg|
    ensures m == Decode(msg[pos..])
  {
    var xport := XorPort(Uint16(msg[pos + 2], msg[pos + 3]));
    m := Mapped(XorByte(msg[pos + 4], 0x21), XorByte(msg[pos + 5], 0x12),
                XorByte(msg[pos + 6], 0xA4), XorByte(msg[pos + 7], 0x42), xport);
  }

  /** The loop; every index is checked to be in range and the loop to end on arbitrary bytes. */
  method ParseSTUNXORMapped(msg: seq<byte>) returns (r: Result)
    ensures r == Parse(msg)
  {
    if |msg| < 20 {
      return ShortResponse;
    }
    ghost var found := Walk(msg[HEADER..]);
    var pos := 20;
    while pos + 4 <= |msg|
      invariant pos >= 20
      invariant found == Walk(Unread(msg, pos))
      decreases |msg| - pos
    {
      var attrType := Uint16(msg[pos], msg[pos + 1]);
      var attrLen := Uint16(msg[pos + 2], msg[pos + 3]);
      ghost var next := pos + 4 + PadTo4(attrLen);
      WalkAt(msg, pos, attrType, attrLen, next, found);
      pos := pos + 4;
      if pos + attrLen > |msg| {
        break;
      }
      if attrType == 0x0020 && attrLen >= 8 {
        var family := msg[pos + 1];
        if family == 0x01 {
          var mapped := MappedAt(msg, pos);
          return Found(mapped);
        }
      }
      pos := pos + PadTo4(attrLen);
      assert pos == next;
    }
    return NotFound;
  }

  // ---- the encoder of RFC 5389 ----

  /** An attribute with its padding bytes, whatever they hold. */
  datatype Attribute = Attribute(kind: nat, value: seq<byte>, padding: seq<byte>)

  type PaddedAttribute = t: Attribute |
      t.kind < 65536 && |t.value| < 65536 && |t.padding| == PadTo4(|t.value|) - |t.value|
    witness Attribute(0, [], [])

  /** An attribute the walker passes over. */
  predicate Passed(t: PaddedAttribute) {
    !(t.kind == XOR_MAPPED_ADDRESS && |t.value| >= 8 && t.value[1] == FAMILY_IPV4)
  }

  /** Section 15 framing: type, length, value, and whatever follows. */
  function Frame(kind: nat, value: seq<byte>, rest: seq<byte>): seq<byte>
    requires kind < 65536 && |value| < 65536
  {
    PutUint16(kind) + PutUint16(|value|) + (value + rest)
  }

  /** The padded attributes `ts` in order, in front of `rest`. */
  function FrameAll(ts: seq<PaddedAttribute>, rest: seq<byte>): seq<byte> {
    if ts == [] then rest else Frame(ts[0].kind, ts[0].value, ts[0].padding + FrameAll(ts[1..], rest))
  }

  /** The value of section 15.2: a reserved byte, the family, X-Port, X-Address. */
  function EncodeMapped(m: Mapped, reserved: byte): (v: seq<byte>)
    requires m.port < 65536
    ensures |v| == 8
  {
    [reserved, FAMILY_IPV4] + PutUint16(XorPort(m.port))
    + [XorByte(m.a, 0x21), XorByte(m.b, 0x12), XorByte(m.c, 0xA4), XorByte(m.d, 0x42)]
  }

  lemma DecodeUndoesEncode(m: Mapped, value: seq<byte>)
    requires m.port < 65536 && 8 <= |value| && value[..8] == EncodeMapped(m, value[0])
    ensures value[1] == FAMILY_IPV4 && Decode(value) == m
  {
    var v := EncodeMapped(m, value[0]);
    assert forall i | 0 <= i < 8 :: value[i] == value[..8][i] == v[i];
    XorUndoesItself(m.port, COOKIE_HIGH);
    XorByteUndoesItself(m.a, 0x21);
    XorByteUndoesItself(m.b, 0x12);
    XorByteUndoesItself(m.c, 0xA4);
    XorByteUndoesItself(m.d, 0x42);
  }

  lemma EncodeUndoesDecode(value: seq<byte>)
    requires |value| >= 8 && value[1] == FAMILY_IPV4
    ensures Decode(value).port < 65536
    ensures EncodeMapped(Decode(value), value[0]) == value[..8]
  {
    XorUndoesItself(Uint16(value[2], value[3]), COOKIE_HIGH);
    PutUint16OfUint16(value[2], value[3]);
    XorByteUndoesItself(value[4], 0x21);
    XorByteUndoesItself(value[5], 0x12);
    XorByteUndoesItself(value[6], 0xA4);
    XorByteUndoesItself(value[7], 0x42);
  }

  lemma FrameReads(kind: nat, value: seq<byte>, rest: seq<byte>)
    requires kind < 65536 && |value| < 65536
    ensures var msg := Frame(kind, value, rest);
            && Framed(msg) && Kind(msg) == kind && Length(msg) == |value|
            && msg[4..] == value + rest && msg[4..][..|value|] == value && msg[4..][|value|..] == rest
            && (|value| >= 2 ==> msg[5] == value[1])
  {
    var msg := Frame(kind, value, rest);
    assert msg[4..] == value + rest;
    if |value| >= 2 {
      assert msg[5] == msg[4..][1];
    }
  }

  lemma DropBehind(a: seq<byte>, b: seq<byte>, c: seq<byte>, msg: seq<byte>, at: nat)
    requires at <= |msg| && msg[at..] == a + (b + c)
    ensures Unread(msg, at + |a| + |b|) == c
  {
    assert a + (b + c) == a + b + c;
    assert msg[at + |a| + |b|..] == msg[at..][|a| + |b|..];
  }

  lemma WalkSkipsOne(t: PaddedAttribute, rest: seq<byte>, body: seq<byte>)
    requires Passed(t) && body == Frame(t.kind, t.value, t.padding + rest)
    ensures Walk(body) == Walk(rest)
  {
    FrameReads(t.kind, t.value, t.padding + rest);
    DropBehind(t.value, t.padding, rest, body, 4);
    assert |t.value| + |t.padding| == PadTo4(|t.value|);
    WalkStep(body, rest);
  }

  lemma {:induction false} WalkSkipsAll(ts: seq<PaddedAttribute>, rest: seq<byte>)
    requires forall t | t in ts :: Passed(t)
    ensures Walk(FrameAll(ts, rest)) == Walk(rest)
  {
    if ts != [] {
      WalkSkipsAll(ts[1..], rest);
      WalkSkipsOne(ts[0], FrameAll(ts[1..], rest), FrameAll(ts, rest));
    }
  }

  /** What a message must look like for the walker to answer `m`. */
  ghost predicate Carries(msg: seq<byte>, m: Mapped) {
    |msg| >= HEADER && exists others, value, rest :: CarriesAs(msg[HEADER..], m, others, value, rest)
  }

  ghost predicate CarriesAs(body: seq<byte>, m: Mapped, others: seq<PaddedAttribute>, value: seq<byte>,
                            rest: seq<byte>) {
    && (forall t | t in others :: Passed(t))
    && 8 <= |value| < 65536 && m.port < 65536
    && value[..8] == EncodeMapped(m, value[0])
    && body == FrameAll(others, Frame(XOR_MAPPED_ADDRESS, value, rest))
  }

  /** Every framed attribute is the encoding of what the walker reads there. */
  lemma FrameOfRead(body: seq<byte>)
    requires Framed(body)
    ensures var n := Length(body);
            Frame(Kind(body), body[4..4 + n], body[4 + n..]) == body
  {
    var n := Length(body);
    PutUint16OfUint16(body[0], body[1]);
    PutUint16OfUint16(body[2], body[3]);
    assert body == body[..4] + (body[4..4 + n] + body[4 + n..]);
    assert body[..4] == [body[0], body[1]] + [body[2], body[3]];
  }

  /** The attribute the walker steps over at the front of `body`. */
  lemma PassedOver(body: seq<byte>) returns (t: PaddedAttribute, next: seq<byte>)
    requires Framed(body) && !Answers(body) && 4 + PadTo4(Length(body)) < |body|
    ensures next == Unread(body, 4 + PadTo4(Length(body)))
    ensures Passed(t) && body == Frame(t.kind, t.value, t.padding + next)
  {
    var n := Length(body);
    var value, padding := body[4..4 + n], body[4 + n..4 + PadTo4(n)];
    next := body[4 + PadTo4(n)..];
    assert |value| == n && |padding| == PadTo4(n) - n;
    t := Attribute(Kind(body), value, padding);
    assert n >= 2 ==> value[1] == body[5];
    assert body[4 + n..] == padding + next;
    FrameOfRead(body);
  }

  lemma CarriedBehind(body: seq<byte>, m: Mapped, t: PaddedAttribute, next: seq<byte>,
                      tail: seq<PaddedAttribute>, value: seq<byte>, rest: seq<byte>)
    requires Passed(t) && body == Frame(t.kind, t.value, t.padding + next)
    requires CarriesAs(next, m, tail, value, rest)
    ensures CarriesAs(body, m, [t] + tail, value, rest)
  {
    assert ([t] + tail)[1..] == tail;
  }

  lemma {:induction false} FoundIsCarried(body: seq<byte>)
      returns (others: seq<PaddedAttribute>, value: seq<byte>, rest: seq<byte>)
    requires Walk(body).Some?
    ensures CarriesAs(body, Decode(Walk(body).value), others, value, rest)
    decreases |body|
  {
    if Answers(body) {
      AnswerIsCarried(body);
      others, value, rest := [], body[4..4 + Length(body)], body[4 + Length(body)..];
    } else {
      var t, next := PassedOver(body);
      var tail;
      tail, value, rest := FoundIsCarried(next);
      CarriedBehind(body, Decode(Walk(next).value), t, next, tail, value, rest);
      others := [t] + tail;
    }
  }

  lemma AnswerIsCarried(body: seq<byte>)
    requires Framed(body) && Answers(body)
    ensures CarriesAs(body, Decode(body[4..]), [], body[4..4 + Length(body)], body[4 + Length(body)..])
  {
    var value := body[4..4 + Length(body)];
    FrameOfRead(body);
    EncodeUndoesDecode(body[4..]);
    assert body[4..][..8] == value[..8];
  }

  lemma CarriedIsFound(msg: seq<byte>, m: Mapped, others: seq<PaddedAttribute>, value: seq<byte>, rest: seq<byte>)
    requires |msg| >= HEADER && CarriesAs(msg[HEADER..], m, others, value, rest)
    ensures Parse(msg) == Found(m)
  {
    WalkSkipsAll(others, Frame(XOR_MAPPED_ADDRESS, value, rest));
    AnswerIsFound(m, value, rest);
  }

  lemma AnswerIsFound(m: Mapped, value: seq<byte>, rest: seq<byte>)
    requires 8 <= |value| < 65536 && m.port < 65536 && value[..8] == EncodeMapped(m, value[0])
    ensures Walk(Frame(XOR_MAPPED_ADDRESS, value, rest)) == Some(value + rest) && Decode(value + rest) == m
  {
    FrameReads(XOR_MAPPED_ADDRESS, value, rest);
    assert (value + rest)[..8] == value[..8];
    DecodeUndoesEncode(m, value + rest);
  }

  /** Round trip: behind a header and any number of padded attributes the walker passes over, an
      IPv4 XOR-MAPPED-ADDRESS parses back to the address and port it was built from. */
  lemma ParseUndoesEncode(header: seq<byte>, others: seq<PaddedAttribute>, m: Mapped, reserved: byte,
                          extra: seq<byte>, rest: seq<byte>)
    requires |header| == HEADER
    requires forall t | t in others :: Passed(t)
    requires m.port < 65536 && 8 + |extra| < 65536
    ensures Parse(header + FrameAll(others, Frame(XOR_MAPPED_ADDRESS, EncodeMapped(m, reserved) + extra, rest)))
         == Found(m)
  {
    var value := EncodeMapped(m, reserved) + extra;
    var body := FrameAll(others, Frame(XOR_MAPPED_ADDRESS, value, rest));
    assert (header + body)[HEADER..] == body;
    assert value[..8] == EncodeMapped(m, reserved) && value[0] == reserved;
    CarriedIsFound(header + body, m, others, value, rest);
  }

  /** The walker answers exactly on the messages that carry an answer behind passed-over attributes. */
  lemma ParseFindsExactlyCarried(msg: seq<byte>, m: Mapped)
    ensures Parse(msg) == Found(m) <==> Carries(msg, m)
  {
    if Parse(msg) == Found(m) {
      var others, value, rest := FoundIsCarried(msg[HEADER..]);
    }
    if Carries(msg, m) {
      var others, value, rest :| CarriesAs(msg[HEADER..], m, others, value, rest);
      CarriedIsFound(msg, m, others, value, rest);
    }
  }

  // ---- the bytes on the wire ----

  /** `x` is `y` with the bits of `mask` flipped. */
  ghost predicate Flipped(x: nat, y: nat, mask: nat) {
    forall k: nat :: Bit(x, k) <==> Bit(y, k) != Bit(mask, k)
  }

  /** The address and port of `m` are those of the value with the bits of the magic cookie 0x2112A442 flipped, the port
      with those of its upper half. */
  ghost predicate Unmasks(m: Mapped, value: seq<byte>)
    requires |value| >= 8
  {
    && Flipped(m.port, (value[2] as nat) * 256 + (value[3] as nat), 0x2112)
    && Flipped(m.a as nat, value[4] as nat, 0x21) && Flipped(m.b as nat, value[5] as nat, 0x12)
    && Flipped(m.c as nat, value[6] as nat, 0xA4) && Flipped(m.d as nat, value[7] as nat, 0x42)
  }

  lemma DecodeUnmasks(value: seq<byte>)
    requires |value| >= 8
    ensures Unmasks(Decode(value), value)
  {
    FlippedByXor((value[2] as nat) * 256 + (value[3] as nat), 0x2112);
    FlippedByXor(value[4] as nat, 0x21);
    FlippedByXor(value[5] as nat, 0x12);
    FlippedByXor(value[6] as nat, 0xA4);
    FlippedByXor(value[7] as nat, 0x42);
  }

  /** An IPv4 XOR-MAPPED-ADDRESS right behind the header, byte by byte: type 0x0020, eight bytes of value, the second of
      them the family 1, then masked port and address. */
  lemma BareAttribute(header: seq<byte>, value: seq<byte>, rest: seq<byte>)
    requires |header| == 20 && |value| == 8 && value[1] == 0x01
    ensures var r := Parse(header + [0x00, 0x20, 0x00, 0x08] + value + rest); r.Found? && Unmasks(r.mapped, value)
  {
    FoundAtFront(header, value, rest);
    DecodedAtFront(value, rest);
    DecodeUnmasks(value);
  }

  lemma DecodedAtFront(value: seq<byte>, rest: seq<byte>)
    requires |value| == 8
    ensures Decode(value + rest) == Decode(value)
  {
  }

  lemma FlippedByXor(y: nat, mask: nat)
    ensures Flipped(Xor(y, mask), y, mask)
  {
    forall k: nat ensures Bit(Xor(y, mask), k) <==> Bit(y, k) != Bit(mask, k) {
      XorBits(y, mask, k);
    }
  }

  lemma AnswerAtFront(body: seq<byte>, value: seq<byte>, rest: seq<byte>)
    requires |value| == 8 && value[1] == 0x01 && body == [0x00, 0x20, 0x00, 0x08] + (value + rest)
    ensures Walk(body) == Some(value + rest)
  {
    assert body[4..] == value + rest && body[5] == value[1];
    WalkAnswers(body);
  }

  /** An attribute of another type in front is stepped over: four bytes, its value, and padding to the next multiple of
      four. */
  lemma OtherAttributeSkipped(header: seq<byte>, kind: (byte, byte), length: (byte, byte), value: seq<byte>,
                              padding: seq<byte>, rest: seq<byte>)
    requires |header| == 20 && kind != (0x00, 0x20)
    requires |value| == (length.0 as nat) * 256 + (length.1 as nat) && |padding| == (4 - |value| % 4) % 4
    ensures Parse(header + [kind.0, kind.1, length.0, length.1] + value + padding + rest) == Parse(header + rest)
  {
    var front := [kind.0, kind.1, length.0, length.1];
    var body := front + (value + (padding + rest));
    assert header + front + value + padding + rest == header + body;
    assert (header + body)[HEADER..] == body && (header + rest)[HEADER..] == rest;
    assert body[4..] == value + (padding + rest);
    assert PadTo4(|value|) == |value| + |padding|;
    DropBehind(value, padding, rest, body, 4);
    WalkStep(body, rest);
  }

  lemma PortOfExample()
    ensures Xor(0xA147, 0x2112) == 32853
  {
    assert Xor(1, 0) == 1;
    assert Xor(2, 0) == 2;
    assert Xor(5, 1) == 4;
    assert Xor(10, 2) == 8;
    assert Xor(20, 4) == 16;
    assert Xor(40, 8) == 32;
    assert Xor(80, 16) == 64;
    assert Xor(161, 33) == 128;
    assert Xor(322, 66) == 256;
    assert Xor(645, 132) == 513;
    assert Xor(1290, 264) == 1026;
    assert Xor(2580, 529) == 2053;
    assert Xor(5160, 1058) == 4106;
    assert Xor(10321, 2116) == 8213;
    assert Xor(20643, 4233) == 16426;
  }

  lemma AddressOfExample()
    ensures Xor(0xE1, 0x21) == 192 && Xor(0x12, 0x12) == 0 && Xor(0xA6, 0xA4) == 2 && Xor(0x43, 0x42) == 1
  {
    assert Xor(1, 0) == 1;
    assert Xor(3, 0) == 3;
    assert Xor(7, 1) == 6;
    assert Xor(14, 2) == 12;
    assert Xor(28, 4) == 24;
    assert Xor(56, 8) == 48;
    assert Xor(112, 16) == 96;
    assert Xor(1, 1) == 0;
    assert Xor(2, 2) == 0;
    assert Xor(4, 4) == 0;
    assert Xor(9, 9) == 0;
    assert Xor(1, 1) == 0;
    assert Xor(2, 2) == 0;
    assert Xor(5, 5) == 0;
    assert Xor(10, 10) == 0;
    assert Xor(20, 20) == 0;
    assert Xor(41, 41) == 0;
    assert Xor(83, 82) == 1;
    assert Xor(1, 1) == 0;
    assert Xor(2, 2) == 0;
    assert Xor(4, 4) == 0;
    assert Xor(8, 8) == 0;
    assert Xor(16, 16) == 0;
    assert Xor(33, 33) == 0;
  }

  lemma FoundAtFront(header: seq<byte>, value: seq<byte>, rest: seq<byte>)
    requires |header| == 20 && |value| == 8 && value[1] == 0x01
    ensures Parse(header + [0x00, 0x20, 0x00, 0x08] + value + rest) == Found(Decode(value + rest))
  {
    var front: seq<byte> := [0x00, 0x20, 0x00, 0x08];
    var msg := header + front + value + rest;
    assert msg[HEADER..] == front + (value + rest);
    AnswerAtFront(msg[HEADER..], value, rest);
  }

  /** One response, with the address 192.0.2.1 and the port 32853. */
  lemma ResponseExample(header: seq<byte>)
    requires |header| == 20
    ensures Parse(header + [0x00, 0x20, 0x00, 0x08] + [0x00, 0x01, 0xA1, 0x47, 0xE1, 0x12, 0xA6, 0x43])
         == Found(Mapped(192, 0, 2, 1, 32853))
  {
    var value: seq<byte> := [0x00, 0x01, 0xA1, 0x47, 0xE1, 0x12, 0xA6, 0x43];
    FoundAtFront(header, value, []);
    assert header + [0x00, 0x20, 0x00, 0x08] + value + [] == header + [0x00, 0x20, 0x00, 0x08] + value;
    assert value + [] == value;
    PortOfExample();
    AddressOfExample();
  }
}
