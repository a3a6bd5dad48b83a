/** The fixed-width symbol codec of kvserve_v1/compression/codec/bitpack_codec.py.
    Symbols and bytes are natural numbers; a device assertion that fires is `Failure`. */
module BitPack {
  import opened Wrappers
  import opened Powers

  const HEADER_BYTES: nat := 16
  const MAGIC: nat := 0x0150424B
  const BLOCK: nat := 1024

  type Symbols = seq<nat>
  type Bytes = seq<nat>

  predicate Width(bits: nat) { 1 <= bits <= 8 }

  ghost predicate InAlphabet(s: Symbols, bits: nat) {
    forall i :: 0 <= i < |s| ==> s[i] < Pow2(bits)
  }

  function BodySize(count: nat, bits: nat): nat { (count * bits + 7) / 8 }

  // ----- The bit stream -----

  /** Bit p of the symbols laid end to end, least significant bit first, zeros after them. */
  function StreamBit(s: Symbols, bits: nat, p: nat): nat
    requires bits > 0
  {
    if p / bits < |s| then BitAt(s[p / bits], p % bits) else 0
  }

  lemma Position(bits: nat, first: nat, u: nat)
    requires bits > 0
    ensures (first * bits + u) / bits == first + u / bits && (first * bits + u) % bits == u % bits
  {
    var q, r := u / bits, u % bits;
    assert first * bits + u == (first + q) * bits + r by { assert u == q * bits + r; }
    DivMod(first * bits + u, bits, first + q, r);
  }

  // ----- Gathering one byte -----

  function First(bits: nat, b: nat): nat requires bits > 0 { b * 8 / bits }
  function Offset(bits: nat, b: nat): (o: nat) requires bits > 0 ensures o < bits { b * 8 % bits }

  /** How far to the left the j-th symbol of a byte goes; negative for the first one. */
  function Shift(bits: nat, b: nat, j: nat): int requires bits > 0 { j * bits - Offset(bits, b) }

  predicate Loads(s: Symbols, bits: nat, b: nat, j: nat)
    requires bits > 0
  {
    b < BodySize(|s|, bits) && First(bits, b) + j < |s| && (j == 0 || Shift(bits, b, j) < 8)
  }

  function Loaded(s: Symbols, bits: nat, b: nat, j: nat): nat
    requires bits > 0
  {
    if Loads(s, bits, b, j) then s[First(bits, b) + j] else 0
  }

  lemma ShiftPositive(bits: nat, b: nat, j: nat)
    requires bits > 0 && j > 0
    ensures Shift(bits, b, j) > 0
  {
    MulBound(j, bits);
  }

  /** `packed` after the j-th symbol has been merged in. */
  function Gather(s: Symbols, bits: nat, b: nat, j: nat): nat
    requires bits > 0
  {
    if j == 0 then Shr(Loaded(s, bits, b, 0), Offset(bits, b))
    else
      ShiftPositive(bits, b, j);
      Or(Gather(s, bits, b, j - 1), Shl(Loaded(s, bits, b, j), Shift(bits, b, j)))
  }

  /** The bound of the gather loop. */
  function Reach(bits: nat): nat requires bits > 0 { (7 + bits - 1) / bits }

  function PackByte(s: Symbols, bits: nat, b: nat): nat
    requires bits > 0
  {
    Gather(s, bits, b, Reach(bits)) % 256
  }

  /** The loop bound reaches every symbol that touches the byte. */
  lemma ReachSuffices(bits: nat, b: nat, t: nat)
    requires bits > 0 && t < 8
    ensures (Offset(bits, b) + t) / bits <= Reach(bits)
  {
    var u, top := Offset(bits, b) + t, 7 + bits - 1;
    var q, k := u / bits, top / bits;
    assert q * bits <= u && top < (k + 1) * bits by { assert top == k * bits + top % bits; }
    MulCancel(q, k + 1, bits);
  }

  lemma LoadedSmall(s: Symbols, bits: nat, b: nat, j: nat)
    requires bits > 0 && InAlphabet(s, bits)
    ensures Loaded(s, bits, b, j) < Pow2(bits)
  {
  }

  lemma PieceIndex(bits: nat, o: nat, j: nat, t: nat)
    requires bits > 0 && o < bits
    ensures (o + t) / bits == j ==> t >= j * bits - o && t - (j * bits - o) == (o + t) % bits
    ensures (o + t) / bits != j && t >= j * bits - o ==> t - (j * bits - o) >= bits
  {
    var u := o + t;
    var q, r := u / bits, u % bits;
    assert u == q * bits + r;
    if q != j && u >= j * bits {
      if q < j { MulMonotone(q + 1, j, bits); } else { MulMonotone(j + 1, q, bits); }
      assert q > j;
    }
  }

  /** The contribution of the j-th load to bit t. */
  lemma PieceBit(s: Symbols, bits: nat, b: nat, j: nat, t: nat)
    requires bits > 0 && InAlphabet(s, bits) && t < 8 && b < BodySize(|s|, bits) && j > 0
    ensures Shift(bits, b, j) > 0
    ensures BitAt(Shl(Loaded(s, bits, b, j), Shift(bits, b, j)), t)
         == if (Offset(bits, b) + t) / bits == j then StreamBit(s, bits, b * 8 + t) else 0
  {
    hide Pow2, BitAt, Shl, BodySize, InAlphabet, Shift, Offset, First;
    ShiftPositive(bits, b, j);
    var o, k := Offset(bits, b), Shift(bits, b, j);
    var v := Loaded(s, bits, b, j);
    ShlBit(v, k, t);
    PieceIndex(bits, o, j, t);
    ShiftIs(bits, b, j);
    StreamIndex(bits, b, t);
    if (o + t) / bits == j {
      if First(bits, b) + j >= |s| { ZeroBit(t - k); }
    } else if t >= k {
      LoadedSmall(s, bits, b, j);
      HighBit(v, bits, t - k);
    }
  }

  lemma ShiftIs(bits: nat, b: nat, j: nat)
    requires bits > 0
    ensures Shift(bits, b, j) == j * bits - Offset(bits, b)
  {
  }

  /** Which symbol, and which of its bits, holds bit t of byte b. */
  lemma StreamIndex(bits: nat, b: nat, t: nat)
    requires bits > 0
    ensures var u := Offset(bits, b) + t;
      (b * 8 + t) / bits == First(bits, b) + u / bits && (b * 8 + t) % bits == u % bits
  {
    assert b * 8 == First(bits, b) * bits + Offset(bits, b);
    Position(bits, First(bits, b), Offset(bits, b) + t);
  }

  lemma FirstBit(s: Symbols, bits: nat, b: nat, t: nat)
    requires bits > 0 && InAlphabet(s, bits) && t < 8 && b < BodySize(|s|, bits)
    ensures BitAt(Shr(Loaded(s, bits, b, 0), Offset(bits, b)), t)
         == if (Offset(bits, b) + t) / bits == 0 then StreamBit(s, bits, b * 8 + t) else 0
  {
    hide Pow2, BitAt, Shr, BodySize;
    var o := Offset(bits, b);
    var u, v := o + t, Loaded(s, bits, b, 0);
    ShrBit(v, o, t);
    assert b * 8 == First(bits, b) * bits + o;
    Position(bits, First(bits, b), u);
    if u < bits {
      DivMod(u, bits, 0, u);
      if First(bits, b) >= |s| { ZeroBit(u); }
    } else {
      assert u / bits != 0;
      LoadedSmall(s, bits, b, 0);
      HighBit(v, bits, u);
    }
  }

  lemma {:induction false} GatherBit(s: Symbols, bits: nat, b: nat, j: nat, t: nat)
    requires bits > 0 && InAlphabet(s, bits) && t < 8 && b < BodySize(|s|, bits)
    ensures BitAt(Gather(s, bits, b, j), t)
         == if (Offset(bits, b) + t) / bits <= j then StreamBit(s, bits, b * 8 + t) else 0
  {
    hide BitAt, Or, Shl, Shr, Offset, Loaded, InAlphabet, BodySize, Shift, StreamBit;
    StreamBitIsBit(s, bits, b * 8 + t);
    if j == 0 {
      FirstBit(s, bits, b, t);
    } else {
      GatherBit(s, bits, b, j - 1, t);
      PieceBit(s, bits, b, j, t);
      OrBit(Gather(s, bits, b, j - 1), Shl(Loaded(s, bits, b, j), Shift(bits, b, j)), t);
    }
  }

  lemma StreamBitIsBit(s: Symbols, bits: nat, p: nat)
    requires bits > 0
    ensures StreamBit(s, bits, p) == 0 || StreamBit(s, bits, p) == 1
  {
    if p / bits < |s| { BitIsBit(s[p / bits], p % bits); }
  }

  /** Bit t of packed byte b is bit 8b + t of the stream. */
  lemma PackedBit(s: Symbols, bits: nat, b: nat, t: nat)
    requires bits > 0 && InAlphabet(s, bits) && t < 8 && b < BodySize(|s|, bits)
    ensures BitAt(PackByte(s, bits, b), t) == StreamBit(s, bits, b * 8 + t)
  {
    assert Pow2(8) == 256;
    hide BitAt, Gather, StreamBit, BodySize, InAlphabet, Pow2;
    GatherBit(s, bits, b, Reach(bits), t);
    ReachSuffices(bits, b, t);
    LowBit(Gather(s, bits, b, Reach(bits)), 8, t);
  }

  function PackBody(s: Symbols, bits: nat): (r: Bytes)
    requires bits > 0
    ensures |r| == BodySize(|s|, bits)
  {
    seq(BodySize(|s|, bits), b requires 0 <= b < BodySize(|s|, bits) => PackByte(s, bits, b))
  }

  // ----- Unpacking one symbol -----

  function LoByte(body: Bytes, bits: nat, i: nat): nat {
    if i * bits / 8 < |body| then body[i * bits / 8] else 0
  }

  function HiByte(body: Bytes, bits: nat, i: nat): nat {
    if i * bits / 8 + 1 < |body| && i * bits % 8 + bits > 8 then body[i * bits / 8 + 1] else 0
  }

  function UnpackAt(body: Bytes, bits: nat, i: nat): nat {
    Low(Shr(Or(LoByte(body, bits, i), Shl(HiByte(body, bits, i), 8)), i * bits % 8), bits)
  }

  function UnpackBody(body: Bytes, bits: nat, count: nat): Symbols {
    seq(count, i requires 0 <= i < count => UnpackAt(body, bits, i))
  }

  lemma InBody(bits: nat, i: nat, t: nat, count: nat)
    requires bits > 0 && i < count && t < bits
    ensures (i * bits + t) / 8 < BodySize(count, bits)
    ensures (i * bits + t) / bits == i && (i * bits + t) % bits == t
  {
    MulMonotone(i + 1, count, bits);
    assert (i + 1) * bits == i * bits + bits;
    DivMod(i * bits + t, bits, i, t);
  }

  lemma ByteOfBit(p: nat, t: nat)
    ensures var u := p % 8 + t;
      u < 8 ==> (p + t) / 8 == p / 8 && (p + t) % 8 == u
    ensures var u := p % 8 + t;
      8 <= u < 16 ==> (p + t) / 8 == p / 8 + 1 && (p + t) % 8 == u - 8
  {
  }

  lemma PackByteSmall(s: Symbols, bits: nat, b: nat)
    requires bits > 0
    ensures PackByte(s, bits, b) < Pow2(8)
  {
    assert Pow2(8) == 256;
  }

  /** Bit t of the word that unpacking symbol i shifts down. */
  lemma WordBit(s: Symbols, bits: nat, i: nat, t: nat)
    requires Width(bits) && InAlphabet(s, bits) && i < |s| && t < bits
    ensures var body := PackBody(s, bits);
      BitAt(Or(LoByte(body, bits, i), Shl(HiByte(body, bits, i), 8)), i * bits % 8 + t) == StreamBit(s, bits, i * bits + t)
  {
    hide BitAt, Or, Shl, PackByte, StreamBit, InAlphabet, Pow2, BodySize;
    var body := PackBody(s, bits);
    var p := i * bits;
    var u, lo, hi := p % 8 + t, LoByte(body, bits, i), HiByte(body, bits, i);
    OrBit(lo, Shl(hi, 8), u);
    ShlBit(hi, 8, u);
    InBody(bits, i, 0, |s|);
    InBody(bits, i, t, |s|);
    ByteOfBit(p, t);
    StreamBitIsBit(s, bits, p + t);
    assert lo == PackByte(s, bits, p / 8);
    if u < 8 {
      PackedBit(s, bits, p / 8, u);
      assert p / 8 * 8 + u == p + t;
    } else {
      PackByteSmall(s, bits, p / 8);
      HighBit(lo, 8, u);
      assert hi == PackByte(s, bits, p / 8 + 1);
      PackedBit(s, bits, p / 8 + 1, u - 8);
      assert (p / 8 + 1) * 8 + (u - 8) == p + t;
    }
  }

  lemma UnpackPacked(s: Symbols, bits: nat, i: nat)
    requires Width(bits) && InAlphabet(s, bits) && i < |s|
    ensures UnpackAt(PackBody(s, bits), bits, i) == s[i]
  {
    hide BitAt, Or, Shl, Shr, PackBody, StreamBit, Pow2, LoByte, HiByte;
    var body := PackBody(s, bits);
    var word, o := Or(LoByte(body, bits, i), Shl(HiByte(body, bits, i), 8)), i * bits % 8;
    var v := UnpackAt(body, bits, i);
    forall t | 0 <= t < bits ensures BitAt(v, t) == BitAt(s[i], t) {
      LowBit(Shr(word, o), bits, t);
      ShrBit(word, o, t);
      WordBit(s, bits, i, t);
      StreamAt(s, bits, i, t);
    }
    SameBits(v, s[i], bits);
  }

  lemma StreamAt(s: Symbols, bits: nat, i: nat, t: nat)
    requires bits > 0 && i < |s| && t < bits
    ensures StreamBit(s, bits, i * bits + t) == BitAt(s[i], t)
  {
    hide BitAt;
    InBody(bits, i, t, |s|);
  }

  /** Unpacking undoes packing, for every width and length. */
  lemma BodyRoundTrip(s: Symbols, bits: nat)
    requires Width(bits) && InAlphabet(s, bits)
    ensures UnpackBody(PackBody(s, bits), bits, |s|) == s
  {
    hide PackBody, UnpackAt, InAlphabet;
    forall i | 0 <= i < |s| ensures UnpackAt(PackBody(s, bits), bits, i) == s[i] { UnpackPacked(s, bits, i); }
  }

  // ----- Header -----

  function HeaderByte(bits: nat, count: nat, h: nat): nat {
    if h < 4 then Low(Shr(MAGIC, h % 4 * 8), 8)
    else if h == 4 then bits
    else if h >= 8 then Low(Shr(count, h % 8 * 8), 8)
    else 0
  }

  function Header(bits: nat, count: nat): (r: Bytes)
    ensures |r| == HEADER_BYTES
  {
    seq(HEADER_BYTES, h requires 0 <= h < HEADER_BYTES => HeaderByte(bits, count, h))
  }

  lemma CountBit(bits: nat, count: nat, t: nat)
    requires t < 64
    ensures BitAt(HeaderByte(bits, count, 8 + t / 8), t % 8) == BitAt(count, t)
  {
    hide BitAt, Shr;
    var h := 8 + t / 8;
    assert h % 8 == t / 8;
    LowBit(Shr(count, h % 8 * 8), 8, t % 8);
    ShrBit(count, h % 8 * 8, t % 8);
  }

  /** The header names the width and the count: no other 64-bit count or width shares it. */
  lemma HeaderInjective(bits: nat, count: nat, bits': nat, count': nat)
    requires count < Pow2(64) && count' < Pow2(64) && Header(bits, count) == Header(bits', count')
    ensures bits == bits' && count == count'
  {
    hide BitAt, Pow2, HeaderByte;
    assert Header(bits, count)[4] == HeaderByte(bits, count, 4) && Header(bits', count')[4] == HeaderByte(bits', count', 4);
    WidthByte(bits, count);
    WidthByte(bits', count');
    forall t | 0 <= t < 64 ensures BitAt(count, t) == BitAt(count', t) {
      var h := 8 + t / 8;
      assert Header(bits, count)[h] == Header(bits', count')[h];
      CountBit(bits, count, t);
      CountBit(bits', count', t);
    }
    SameBits(count, count', 64);
  }

  lemma WidthByte(bits: nat, count: nat)
    ensures HeaderByte(bits, count, 4) == bits
  {
  }

  /** The header byte by byte: the magic number 0x0150424B and the 64-bit count both with
      their low byte first, the width, three zeros. */
  lemma HeaderIs(bits: nat, count: nat, t: nat)
    requires t < 64
    ensures Header(bits, count)[..8] == [0x4B, 0x42, 0x50, 0x01, bits, 0, 0, 0]
    ensures BitAt(Header(bits, count)[8 + t / 8], t % 8) == BitAt(count, t)
  {
    hide BitAt, HeaderByte;
    CountBit(bits, count, t);
    FixedBytes(bits, count);
  }

  lemma FixedBytes(bits: nat, count: nat)
    ensures HeaderByte(bits, count, 0) == 0x4B && HeaderByte(bits, count, 1) == 0x42
    ensures HeaderByte(bits, count, 2) == 0x50 && HeaderByte(bits, count, 3) == 0x01
    ensures HeaderByte(bits, count, 4) == bits
    ensures HeaderByte(bits, count, 5) == HeaderByte(bits, count, 6) == HeaderByte(bits, count, 7) == 0
  {
    hide Shr, Low;
    MagicBytes();
  }

  /** Eight halvings are a division by 256. */
  lemma ShrByte(v: nat, k: nat)
    ensures Shr(v, 0) == v && Shr(v, k + 8) == Shr(v / 256, k)
  {
    assert Shr(v, k + 8) == Shr(v / 2, k + 7) == Shr(v / 4, k + 6) == Shr(v / 8, k + 5) == Shr(v / 16, k + 4);
    assert Shr(v / 16, k + 4) == Shr(v / 32, k + 3) == Shr(v / 64, k + 2) == Shr(v / 128, k + 1) == Shr(v / 256, k);
  }

  lemma MagicBytes()
    ensures Low(Shr(MAGIC, 0), 8) == 0x4B && Low(Shr(MAGIC, 8), 8) == 0x42
    ensures Low(Shr(MAGIC, 16), 8) == 0x50 && Low(Shr(MAGIC, 24), 8) == 0x01
  {
    assert Pow2(8) == 256;
    hide Shr, Pow2;
    ShrByte(MAGIC, 0);
    ShrByte(MAGIC, 8);
    ShrByte(MAGIC, 16);
    ShrByte(MAGIC / 256, 0);
    ShrByte(MAGIC / 256, 8);
    ShrByte(MAGIC / 256 / 256, 0);
    ShrByte(MAGIC / 256 / 256 / 256, 0);
  }

  // ----- Payloads -----

  function Payload(s: Symbols, bits: nat): Bytes
    requires bits > 0
  {
    Header(bits, |s|) + PackBody(s, bits)
  }

  function Parse(data: Bytes, bits: int, count: nat): Result<Symbols> {
    if bits < 1 || bits > 8 || |data| != HEADER_BYTES + BodySize(count, bits) || data[..HEADER_BYTES] != Header(bits, count)
    then Failure
    else Ok(UnpackBody(data[HEADER_BYTES..], bits, count))
  }

  /** The payload has 16 + ceil(N * bits / 8) bytes and decodes to the symbols; under
      any other width or count the decoder rejects it. */
  lemma PayloadRoundTrip(s: Symbols, bits: nat, bits': int, count: nat)
    requires Width(bits) && InAlphabet(s, bits) && |s| < Pow2(64) && count < Pow2(64)
    ensures |Payload(s, bits)| == 16 + BodySize(|s|, bits)
    ensures 8 * (BodySize(|s|, bits) - 1) < |s| * bits <= 8 * BodySize(|s|, bits)
    ensures Parse(Payload(s, bits), bits', count) == if bits' == bits && count == |s| then Ok(s) else Failure
  {
    hide PackBody, UnpackBody, HeaderByte, InAlphabet, Pow2;
    var data := Payload(s, bits);
    assert data[..HEADER_BYTES] == Header(bits, |s|) && data[HEADER_BYTES..] == PackBody(s, bits);
    if bits' == bits && count == |s| {
      BodyRoundTrip(s, bits);
    } else if 1 <= bits' <= 8 && Header(bits, |s|) == Header(bits', count) {
      HeaderInjective(bits, |s|, bits', count);
    }
  }

  /** What is accepted: only a body of the announced size behind its own header. */
  lemma ParseAccepts(data: Bytes, bits: int, count: nat)
    ensures Parse(data, bits, count).Ok? <==>
      && 1 <= bits <= 8 && |data| == 16 + (count * bits + 7) / 8
      && forall h :: 0 <= h < 16 ==> data[h] == HeaderByte(bits, count, h)
    ensures Parse(data, bits, count).Ok? ==> |Parse(data, bits, count).value| == count
  {
    hide HeaderByte, UnpackAt;
    if 1 <= bits <= 8 && |data| == 16 + (count * bits + 7) / 8 {
      assert data[..16] == Header(bits, count) <==> forall h :: 0 <= h < 16 ==> data[..16][h] == Header(bits, count)[h];
    }
  }

  // ----- The kernels -----

  /** One lane of `_pack`: the byte it packs, and whether its assertions held. */
  method GatherByte(source: Symbols, bits: nat, b: nat) returns (packed: nat, ok: bool)
    requires Width(bits)
    ensures packed == PackByte(source, bits, b)
    ensures ok == forall j :: 0 <= j <= Reach(bits) ==> Loaded(source, bits, b, j) < Pow2(bits)
  {
    hide Or, Shr, Shl, Loaded, Pow2;
    var value := Loaded(source, bits, b, 0);
    ok := value < Pow2(bits);
    packed := Shr(value, Offset(bits, b));
    var j := 1;
    while j < (7 + bits - 1) / bits + 1
      invariant 1 <= j <= Reach(bits) + 1
      invariant packed == Gather(source, bits, b, j - 1)
      invariant ok == forall k :: 0 <= k < j ==> Loaded(source, bits, b, k) < Pow2(bits)
    {
      ShiftPositive(bits, b, j);
      value := Loaded(source, bits, b, j);
      ok := ok && value < Pow2(bits);
      packed := Or(packed, Shl(value, Shift(bits, b, j)));
      j := j + 1;
    }
    packed := packed % 256;
  }

  /** Every symbol is loaded by the byte that holds its first bit. */
  lemma EverySymbolLoaded(s: Symbols, bits: nat, i: nat)
    requires bits > 0 && i < |s|
    ensures exists b: nat, j: nat :: b < BodySize(|s|, bits) && j <= Reach(bits) && Loaded(s, bits, b, j) == s[i]
  {
    var p := i * bits;
    var b, t := p / 8, p % 8;
    InBody(bits, i, 0, |s|);
    StreamIndex(bits, b, t);
    ReachSuffices(bits, b, t);
    var o := Offset(bits, b);
    var j := (o + t) / bits;
    PieceIndex(bits, o, j, t);
    ShiftIs(bits, b, j);
    assert b * 8 + t == p;
    assert (o + t) % bits == 0;
    assert t == j * bits - o;
    assert b < BodySize(|s|, bits) && j <= Reach(bits) && Loaded(s, bits, b, j) == s[i];
  }

  ghost predicate LanesOk(s: Symbols, bits: nat, n: nat)
    requires bits > 0
  {
    forall b, j :: 0 <= b < n && 0 <= j <= Reach(bits) ==> Loaded(s, bits, b, j) < Pow2(bits)
  }

  lemma LanesCheckAll(s: Symbols, bits: nat, n: nat)
    requires bits > 0 && n >= BodySize(|s|, bits)
    ensures LanesOk(s, bits, n) <==> InAlphabet(s, bits)
  {
    hide Pow2, Loaded, BodySize;
    if LanesOk(s, bits, n) {
      forall i | 0 <= i < |s| ensures s[i] < Pow2(bits) { EverySymbolLoaded(s, bits, i); }
    }
    if InAlphabet(s, bits) {
      forall b, j | 0 <= b < n && 0 <= j <= Reach(bits) ensures Loaded(s, bits, b, j) < Pow2(bits) {
        LoadedSmall(s, bits, b, j);
      }
    }
  }

  method WriteHeader(output: array<nat>, bits: nat, count: nat)
    requires output.Length >= HEADER_BYTES
    modifies output
    ensures output[..HEADER_BYTES] == Header(bits, count) && output[HEADER_BYTES..] == old(output[HEADER_BYTES..])
  {
    hide HeaderByte;
    var h := 0;
    while h < HEADER_BYTES
      invariant 0 <= h <= HEADER_BYTES
      invariant forall k :: 0 <= k < h ==> output[k] == HeaderByte(bits, count, k)
      invariant output[HEADER_BYTES..] == old(output[HEADER_BYTES..])
    {
      output[h] := HeaderByte(bits, count, h);
      h := h + 1;
    }
  }

  /** `_pack` over its whole grid, one lane after another. */
  method Pack(source: Symbols, output: array<nat>, bits: nat) returns (ok: bool)
    requires Width(bits) && output.Length == HEADER_BYTES + BodySize(|source|, bits)
    modifies output
    ensures ok == InAlphabet(source, bits)
    ensures output[..] == Payload(source, bits)
  {
    hide HeaderByte, InAlphabet, BodySize, Loaded, PackByte, Pow2;
    var size := BodySize(|source|, bits);
    WriteHeader(output, bits, |source|);
    var blocks := (size + BLOCK - 1) / BLOCK;
    var grid := if blocks < 1 then 1 else blocks;
    ok := true;
    var b := 0;
    while b < grid * BLOCK
      invariant 0 <= b <= grid * BLOCK
      invariant ok == LanesOk(source, bits, b)
      invariant output[..HEADER_BYTES] == Header(bits, |source|)
      invariant forall k :: 0 <= k < size && k < b ==> output[HEADER_BYTES + k] == PackByte(source, bits, k)
    {
      var packed, fine := GatherByte(source, bits, b);
      ok := ok && fine;
      if b < size { output[HEADER_BYTES + b] := packed; }
      b := b + 1;
    }
    LanesCheckAll(source, bits, b);
    assert output[..] == output[..HEADER_BYTES] + output[HEADER_BYTES..];
    assert output[HEADER_BYTES..] == PackBody(source, bits);
  }

  method Encode(source: Symbols, bits: int) returns (r: Result<Bytes>)
    ensures r.Ok? <==> 1 <= bits <= 8 && InAlphabet(source, bits)
    ensures r.Ok? ==> r.value == Payload(source, bits)
  {
    hide InAlphabet, Payload, BodySize;
    if bits < 1 || bits > 8 { return Failure; }
    var output := new nat[HEADER_BYTES + BodySize(|source|, bits)];
    var ok := Pack(source, output, bits);
    r := if ok then Ok(output[..]) else Failure;
  }

  /** `decode`: the length and header checks, then `_unpack` over its grid. */
  method Decode(data: Bytes, bits: int, count: nat) returns (r: Result<Symbols>)
    ensures r == Parse(data, bits, count)
  {
    hide HeaderByte, UnpackAt, BodySize;
    if bits < 1 || bits > 8 || |data| != HEADER_BYTES + BodySize(count, bits) { return Failure; }
    if data[..HEADER_BYTES] != Header(bits, count) { return Failure; }
    var body := data[HEADER_BYTES..];
    var output := new nat[count];
    var i := 0;
    while i < count
      invariant 0 <= i <= count
      invariant forall k :: 0 <= k < i ==> output[k] == UnpackAt(body, bits, k)
    {
      output[i] := UnpackAt(body, bits, i);
      i := i + 1;
    }
    assert output[..] == UnpackBody(body, bits, count);
    return Ok(output[..]);
  }
}
