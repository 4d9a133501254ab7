/** Bytes on the wire and on flash, and little-endian fields. */
module Bytes {

  type Byte = n: nat | n < 0x100
  type Word = n: nat | n < 0x1_0000_0000

  function Concat(chunks: seq<seq<Byte>>): seq<Byte> {
    if chunks == [] then [] else Concat(chunks[..|chunks| - 1]) + chunks[|chunks| - 1]
  }

  /** `transfer_write_u16`: two bytes, low byte first. */
  function U16(n: nat): (s: seq<Byte>)
    requires n < 0x1_0000
    ensures |s| == 2
  {
    var low: Byte, high: Byte := n % 0x100, n / 0x100;
    [low, high]
  }

  function ReadU16(s: seq<Byte>): (n: nat)
    requires |s| == 2
    ensures n < 0x1_0000
  {
    (s[0] as nat) + 0x100 * (s[1] as nat)
  }

  /** `transfer_write_u32`: four bytes, low byte first. */
  function U32(n: Word): (s: seq<Byte>)
    ensures |s| == 4
  {
    U16(n % 0x1_0000) + U16(n / 0x1_0000)
  }

  function ReadU32(s: seq<Byte>): (n: Word)
    requires |s| == 4
  {
    var low, high := ReadU16(s[..2]), ReadU16(s[2..]);
    low + 0x1_0000 * high
  }

  lemma U16RoundTrip(n: nat)
    requires n < 0x1_0000
    ensures ReadU16(U16(n)) == n
  {}

  lemma U32RoundTrip(n: Word)
    ensures ReadU32(U32(n)) == n
  {
    assert U32(n)[..2] == U16(n % 0x1_0000);
    assert U32(n)[2..] == U16(n / 0x1_0000);
  }

  lemma U16Injective(s: seq<Byte>, t: seq<Byte>)
    requires |s| == |t| == 2 && ReadU16(s) == ReadU16(t)
    ensures s == t
  {}

  lemma U32Injective(s: seq<Byte>, t: seq<Byte>)
    requires |s| == |t| == 4 && ReadU32(s) == ReadU32(t)
    ensures s == t
  {
    U16Injective(s[..2], t[..2]);
    U16Injective(s[2..], t[2..]);
    assert s == s[..2] + s[2..] && t == t[..2] + t[2..];
  }
}

/** The CRC-32 of section 8 of RFC 1952, which guards the saved log and the transferred files. */
module Crc {
  import opened Bytes

  const POLYNOMIAL: bv32 := 0xEDB8_8320
  const SEED: bv32 := 0xFFFF_FFFF

  /** One bit of the reflected CRC register. */
  function BitStep(crc: bv32): bv32 {
    (crc >> 1) ^ (if crc & 1 == 1 then POLYNOMIAL else 0)
  }

  function Bits(crc: bv32, count: nat): bv32 {
    if count == 0 then crc else BitStep(Bits(crc, count - 1))
  }

  function StepByte(x: bv32): bv32 {
    Bits(x, 8)
  }

  function Mix(a: bv32, b: bv32): bv32 {
    a ^ b
  }

  function WordOf(b: Byte): bv32 {
    (b as bv8) as bv32
  }

  function ByteStep(crc: bv32, b: Byte): bv32 {
    StepByte(Mix(crc, WordOf(b)))
  }

  type Step<!R> = (R, Byte) -> R

  /** The register after `bytes`, starting from `crc`, when each byte is taken in by `f`. */
  function FeedBy<R>(f: Step<R>, crc: R, bytes: seq<Byte>): R {
    if bytes == [] then crc
    else f(FeedBy(f, crc, bytes[..|bytes| - 1]), bytes[|bytes| - 1])
  }

  function Feed(crc: bv32, bytes: seq<Byte>): bv32 {
    FeedBy(ByteStep, crc, bytes)
  }

  function Final(register: bv32): Word {
    (!register) as int
  }

  function Crc32(bytes: seq<Byte>): Word {
    Final(Feed(SEED, bytes))
  }

  lemma MaskForms(crc: bv32)
    ensures (crc >> 1) ^ (POLYNOMIAL & (0 - (crc & 1))) == BitStep(crc)
  {
    assert crc & 1 == 0 || crc & 1 == 1;
  }

  /** `crc_bytes`: the register update that the saved log splits over a page. */
  method CrcBytes(start: bv32, bytes: seq<Byte>) returns (crc: bv32)
    ensures crc == Feed(start, bytes)
  {
    crc := start;
    var i := 0;
    while i < |bytes|
      invariant 0 <= i <= |bytes|
      invariant crc == Feed(start, bytes[..i])
    {
      crc := TakeByte(crc, bytes[i]);
      assert bytes[..i + 1][..i] == bytes[..i];
      i := i + 1;
    }
    assert bytes[..i] == bytes;
  }

  method TakeByte(start: bv32, b: Byte) returns (crc: bv32)
    ensures crc == ByteStep(start, b)
  {
    var mixed := Mix(start, WordOf(b));
    crc := EightBits(mixed);
  }

  /** The inner loop of `crc_bytes`, with a mask in place of a branch. */
  method EightBits(start: bv32) returns (crc: bv32)
    ensures crc == StepByte(start)
  {
    crc := start;
    var bit := 0;
    while bit < 8
      invariant 0 <= bit <= 8
      invariant crc == Bits(start, bit)
    {
      MaskForms(crc);
      crc := (crc >> 1) ^ (POLYNOMIAL & (0 - (crc & 1)));
      bit := bit + 1;
    }
  }

  /** `transfer_crc32`. */
  method TransferCrc32(data: seq<Byte>) returns (crc: Word)
    ensures crc == Crc32(data)
  {
    var register := CrcBytes(SEED, data);
    crc := Final(register);
  }

  lemma {:induction false} FeedByConcat<R>(f: Step<R>, crc: R, a: seq<Byte>, b: seq<Byte>)
    ensures FeedBy(f, crc, a + b) == FeedBy(f, FeedBy(f, crc, a), b)
  {
    if b == [] {
      assert a + b == a;
    } else {
      var n := |b| - 1;
      FeedByConcat(f, crc, a, b[..n]);
      assert (a + b)[..|a + b| - 1] == a + b[..n];
    }
  }

  lemma FeedConcat(crc: bv32, a: seq<Byte>, b: seq<Byte>)
    ensures Feed(crc, a + b) == Feed(Feed(crc, a), b)
  {
    FeedByConcat(ByteStep, crc, a, b);
  }

  // Facts about 32-bit words alone, kept apart from the recursive definitions.

  lemma XorShift(a: bv32, b: bv32)
    ensures (a ^ b) >> 1 == (a >> 1) ^ (b >> 1)
  {}

  lemma XorLow(a: bv32, b: bv32)
    ensures ((a ^ b) & 1 == 1) == ((a & 1 == 1) != (b & 1 == 1))
  {}

  lemma XorPairs(a: bv32, b: bv32, p: bv32, q: bv32)
    ensures (a ^ p) ^ (b ^ q) == (a ^ b) ^ (p ^ q)
  {}

  lemma XorCancel(a: bv32, b: bv32, x: bv32)
    requires a ^ x == b ^ x
    ensures a == b
  {}

  lemma IntBack(a: bv32)
    ensures (a as int) as bv32 == a
  {}

  lemma ComplementInjective(a: bv32, b: bv32)
    requires !a == !b
    ensures a == b
  {}

  lemma FinalInjective(a: bv32, b: bv32)
    requires Final(a) == Final(b)
    ensures a == b
  {
    IntBack(!a);
    IntBack(!b);
    ComplementInjective(a, b);
  }

  lemma BitStepLinear(a: bv32, b: bv32)
    ensures BitStep(a ^ b) == BitStep(a) ^ BitStep(b)
  {
    XorShift(a, b);
    XorLow(a, b);
    var p: bv32 := if a & 1 == 1 then POLYNOMIAL else 0;
    var q: bv32 := if b & 1 == 1 then POLYNOMIAL else 0;
    XorPairs(a >> 1, b >> 1, p, q);
  }

  lemma BitStepInjective(a: bv32, b: bv32)
    requires BitStep(a) == BitStep(b)
    ensures a == b
  {}

  lemma {:induction false} BitsInjective(a: bv32, b: bv32, count: nat)
    requires Bits(a, count) == Bits(b, count)
    ensures a == b
  {
    if count > 0 {
      BitStepInjective(Bits(a, count - 1), Bits(b, count - 1));
      BitsInjective(a, b, count - 1);
    }
  }

  /** Stepping is linear over exclusive or. */
  lemma {:induction false} BitsLinear(a: bv32, b: bv32, mixed: bv32, count: nat)
    requires mixed == a ^ b
    ensures Bits(mixed, count) == Bits(a, count) ^ Bits(b, count)
  {
    if count > 0 {
      BitsLinear(a, b, mixed, count - 1);
      BitsLinearStep(a, b, mixed, count, Bits(a, count - 1), Bits(b, count - 1), Bits(mixed, count - 1));
    }
  }

  lemma BitsLinearStep(a: bv32, b: bv32, mixed: bv32, count: nat, x: bv32, y: bv32, z: bv32)
    requires count > 0
    requires Bits(a, count - 1) == x && Bits(b, count - 1) == y && Bits(mixed, count - 1) == z
    requires z == x ^ y
    ensures Bits(mixed, count) == Bits(a, count) ^ Bits(b, count)
  {
    BitStepLinear(x, y);
  }

  lemma ClearByte(x: bv32)
    requires x & 0xFF == 0
    ensures BitStep(BitStep(BitStep(BitStep(BitStep(BitStep(BitStep(BitStep(x)))))))) == x >> 8
  {}

  lemma BitsSucc(x: bv32, count: nat)
    ensures Bits(x, count + 1) == BitStep(Bits(x, count))
  {}

  /** Eight bit steps over a register whose low byte is clear only move it down. */
  lemma BitsClearByte(x: bv32)
    requires x & 0xFF == 0
    ensures Bits(x, 8) == x >> 8
  {
    ClearByte(x);
    BitsSucc(x, 0);
    BitsSucc(x, 1);
    BitsSucc(x, 2);
    BitsSucc(x, 3);
    BitsSucc(x, 4);
    BitsSucc(x, 5);
    BitsSucc(x, 6);
    BitsSucc(x, 7);
  }

  // What four bytes do to the register, for any step that is linear over any mixing
  // operation. Nothing below needs more of the CRC than these properties.

  type Mixer<!R> = (R, R) -> R

  ghost predicate Linear<R(!new)>(step: R -> R, mix: Mixer<R>) {
    forall a: R, b: R {:trigger step(mix(a, b))} :: step(mix(a, b)) == mix(step(a), step(b))
  }

  ghost predicate Injective<R(!new)>(step: R -> R) {
    forall a: R, b: R :: step(a) == step(b) ==> a == b
  }

  ghost predicate Cancels<R(!new)>(mix: Mixer<R>) {
    forall a: R, b: R, x: R :: mix(a, x) == mix(b, x) ==> a == b
  }

  /** `f` mixes the byte into the register and steps once. */
  ghost predicate TakesIn<R(!new)>(f: Step<R>, step: R -> R, mix: Mixer<R>, word: Byte -> R) {
    forall c: R, b: Byte {:trigger f(c, b)} :: f(c, b) == step(mix(c, word(b)))
  }

  /** `lane(b, n)` is the register that n steps bring down to the byte b. */
  ghost predicate StepsDown<R(!new)>(step: R -> R, word: Byte -> R, lane: (Byte, nat) -> R) {
    forall b: Byte :: step(lane(b, 1)) == word(b) && step(lane(b, 2)) == lane(b, 1) && step(lane(b, 3)) == lane(b, 2)
  }

  ghost predicate Apart<R(!new)>(f: Step<R>) {
    forall x: R, y: R, b: Byte :: f(x, b) == f(y, b) ==> x == y
  }

  function Word4<R(!new)>(mix: Mixer<R>, word: Byte -> R, lane: (Byte, nat) -> R, c: R, b0: Byte, b1: Byte, b2: Byte, b3: Byte): R
  {
    mix(mix(mix(mix(c, word(b0)), lane(b1, 1)), lane(b2, 2)), lane(b3, 3))
  }

  ghost predicate LanesApart<R(!new)>(mix: Mixer<R>, word: Byte -> R, lane: (Byte, nat) -> R) {
    forall c: R, x0: Byte, x1: Byte, x2: Byte, x3: Byte, y0: Byte, y1: Byte, y2: Byte, y3: Byte ::
      Word4(mix, word, lane, c, x0, x1, x2, x3) == Word4(mix, word, lane, c, y0, y1, y2, y3)
      ==> x0 == y0 && x1 == y1 && x2 == y2 && x3 == y3
  }

  lemma LanesApartAt<R(!new)>(mix: Mixer<R>, word: Byte -> R, lane: (Byte, nat) -> R, c: R,
                              x0: Byte, x1: Byte, x2: Byte, x3: Byte, y0: Byte, y1: Byte, y2: Byte, y3: Byte)
    requires LanesApart(mix, word, lane)
    requires Word4(mix, word, lane, c, x0, x1, x2, x3) == Word4(mix, word, lane, c, y0, y1, y2, y3)
    ensures x0 == y0 && x1 == y1 && x2 == y2 && x3 == y3
  {}

  lemma LinearAt<R(!new)>(step: R -> R, mix: Mixer<R>, a: R, b: R)
    requires Linear(step, mix)
    ensures step(mix(a, b)) == mix(step(a), step(b))
  {}

  lemma InjectiveAt<R(!new)>(step: R -> R, a: R, b: R)
    requires Injective(step) && step(a) == step(b)
    ensures a == b
  {}

  lemma TakesInApart<R(!new)>(f: Step<R>, step: R -> R, mix: Mixer<R>, word: Byte -> R)
    requires TakesIn(f, step, mix, word) && Injective(step) && Cancels(mix)
    ensures Apart(f)
  {
    forall x: R, y: R, b: Byte | f(x, b) == f(y, b) ensures x == y {
      InjectiveAt(step, mix(x, word(b)), mix(y, word(b)));
    }
  }

  /** Four bytes act on the register as one word. */
  lemma FeedWord<R(!new)>(f: Step<R>, step: R -> R, mix: Mixer<R>, word: Byte -> R, lane: (Byte, nat) -> R,
                 c: R, s: seq<Byte>)
    requires Linear(step, mix) && TakesIn(f, step, mix, word) && StepsDown(step, word, lane)
    requires |s| == 4
    ensures FeedBy(f, c, s) == step(step(step(step(Word4(mix, word, lane, c, s[0], s[1], s[2], s[3])))))
  {
    FeedByFour(f, c, s);
    var h1, h2, h3 := lane(s[1], 1), lane(s[2], 2), lane(s[3], 3);
    assert step(lane(s[2], 1)) == word(s[2]) && step(lane(s[3], 1)) == word(s[3]);
    assert step(h1) == word(s[1]) && step(step(h2)) == word(s[2]) && step(step(step(h3))) == word(s[3]);
    var w0 := mix(c, word(s[0]));
    var w1 := mix(w0, h1);
    var w2 := mix(w1, h2);
    assert f(c, s[0]) == step(w0);
    LinearAt(step, mix, w0, h1);
    assert f(step(w0), s[1]) == step(step(w1));
    LinearAt(step, mix, w1, h2);
    LinearAt(step, mix, step(w1), step(h2));
    assert f(step(step(w1)), s[2]) == step(step(step(w2)));
    LinearAt(step, mix, w2, h3);
    LinearAt(step, mix, step(w2), step(h3));
    LinearAt(step, mix, step(step(w2)), step(step(h3)));
  }

  lemma FourStepsInjective<R(!new)>(step: R -> R, a: R, b: R)
    requires Injective(step)
    requires step(step(step(step(a)))) == step(step(step(step(b))))
    ensures a == b
  {
    InjectiveAt(step, step(step(step(a))), step(step(step(b))));
    InjectiveAt(step, step(step(a)), step(step(b)));
    InjectiveAt(step, step(a), step(b));
    InjectiveAt(step, a, b);
  }

  lemma FeedWordInjective<R(!new)>(f: Step<R>, step: R -> R, mix: Mixer<R>, word: Byte -> R, lane: (Byte, nat) -> R,
                                   c: R, x: seq<Byte>, y: seq<Byte>)
    requires Linear(step, mix) && TakesIn(f, step, mix, word) && StepsDown(step, word, lane)
    requires Injective(step) && LanesApart(mix, word, lane)
    requires |x| == |y| == 4 && FeedBy(f, c, x) == FeedBy(f, c, y)
    ensures x == y
  {
    var u := Word4(mix, word, lane, c, x[0], x[1], x[2], x[3]);
    var v := Word4(mix, word, lane, c, y[0], y[1], y[2], y[3]);
    assert step(step(step(step(u)))) == step(step(step(step(v)))) by {
      FeedWord(f, step, mix, word, lane, c, x);
      FeedWord(f, step, mix, word, lane, c, y);
    }
    assert u == v by { FourStepsInjective(step, u, v); }
    LanesApartAt(mix, word, lane, c, x[0], x[1], x[2], x[3], y[0], y[1], y[2], y[3]);
    SameFour(x, y);
  }

  lemma SameFour(x: seq<Byte>, y: seq<Byte>)
    requires |x| == |y| == 4
    requires x[0] == y[0] && x[1] == y[1] && x[2] == y[2] && x[3] == y[3]
    ensures x == y
  {}

  lemma FeedByFour<R(!new)>(f: Step<R>, c: R, s: seq<Byte>)
    requires |s| == 4
    ensures FeedBy(f, c, s) == f(f(f(f(c, s[0]), s[1]), s[2]), s[3])
  {
    assert s[..3][..2] == s[..2] && s[..2][..1] == s[..1] && s[..1][..0] == [];
    assert FeedBy(f, c, s[..1]) == f(c, s[0]);
    assert FeedBy(f, c, s[..2]) == f(FeedBy(f, c, s[..1]), s[1]);
    assert FeedBy(f, c, s[..3]) == f(FeedBy(f, c, s[..2]), s[2]);
  }

  /** Equal bytes never bring two different registers together. */
  lemma {:induction false} FeedInjective<R(!new)>(f: Step<R>, a: R, b: R, bytes: seq<Byte>)
    requires Apart(f)
    requires FeedBy(f, a, bytes) == FeedBy(f, b, bytes)
    ensures a == b
  {
    if bytes != [] {
      var n := |bytes| - 1;
      assert FeedBy(f, a, bytes[..n]) == FeedBy(f, b, bytes[..n]);
      FeedInjective(f, a, b, bytes[..n]);
    }
  }

  // The CRC register has these properties.

  function Lane(b: Byte, n: nat): bv32 {
    if n == 1 then WordOf(b) << 8 else if n == 2 then WordOf(b) << 16 else WordOf(b) << 24
  }

  lemma StepByteLinear()
    ensures Linear(StepByte, Mix)
  {
    forall a, b ensures StepByte(Mix(a, b)) == Mix(StepByte(a), StepByte(b)) {
      BitsLinear(a, b, a ^ b, 8);
    }
  }

  lemma StepByteInjective()
    ensures Injective(StepByte)
  {
    forall a, b | StepByte(a) == StepByte(b) ensures a == b {
      BitsInjective(a, b, 8);
    }
  }

  lemma ByteStepTakesIn()
    ensures TakesIn(ByteStep, StepByte, Mix, WordOf)
  {}

  lemma MixCancels()
    ensures Cancels(Mix)
  {
    forall a, b, x | Mix(a, x) == Mix(b, x) ensures a == b {
      XorCancel(a, b, x);
    }
  }

  lemma ByteStepApart()
    ensures Apart(ByteStep)
  {
    StepByteInjective();
    MixCancels();
    ByteStepTakesIn();
    TakesInApart(ByteStep, StepByte, Mix, WordOf);
  }

  lemma LaneStepsDown(b: Byte)
    ensures StepByte(Lane(b, 1)) == WordOf(b)
    ensures StepByte(Lane(b, 2)) == Lane(b, 1)
    ensures StepByte(Lane(b, 3)) == Lane(b, 2)
  {
    HighPlaces(WordOf(b));
    BitsClearByte(WordOf(b) << 8);
    BitsClearByte(WordOf(b) << 16);
    BitsClearByte(WordOf(b) << 24);
  }

  lemma HighPlaces(b: bv32)
    requires b <= 0xFF
    ensures (b << 8) & 0xFF == 0 && (b << 16) & 0xFF == 0 && (b << 24) & 0xFF == 0
    ensures (b << 8) >> 8 == b && (b << 16) >> 8 == b << 8 && (b << 24) >> 8 == b << 16
  {}

  lemma LanesStepDown()
    ensures StepsDown(StepByte, WordOf, Lane)
  {
    forall b: Byte
      ensures StepByte(Lane(b, 1)) == WordOf(b) && StepByte(Lane(b, 2)) == Lane(b, 1) && StepByte(Lane(b, 3)) == Lane(b, 2)
    {
      LaneStepsDown(b);
    }
  }

  function Packed(c: bv32, x0: bv32, x1: bv32, x2: bv32, x3: bv32): bv32 {
    (((c ^ x0) ^ (x1 << 8)) ^ (x2 << 16)) ^ (x3 << 24)
  }

  lemma PackedApart(c: bv32, x0: bv32, x1: bv32, x2: bv32, x3: bv32, y0: bv32, y1: bv32, y2: bv32, y3: bv32)
    requires x0 <= 0xFF && x1 <= 0xFF && x2 <= 0xFF && x3 <= 0xFF
    requires y0 <= 0xFF && y1 <= 0xFF && y2 <= 0xFF && y3 <= 0xFF
    requires Packed(c, x0, x1, x2, x3) == Packed(c, y0, y1, y2, y3)
    ensures x0 == y0 && x1 == y1 && x2 == y2 && x3 == y3
  {}

  lemma Word4IsPacked(c: bv32, b0: Byte, b1: Byte, b2: Byte, b3: Byte)
    ensures Word4(Mix, WordOf, Lane, c, b0, b1, b2, b3) == Packed(c, WordOf(b0), WordOf(b1), WordOf(b2), WordOf(b3))
  {}

  lemma WidenInjective(a: bv8, b: bv8)
    requires (a as bv32) == (b as bv32)
    ensures a == b
  {}

  lemma ByteBack(n: int)
    requires 0 <= n < 0x100
    ensures (n as bv8) as int == n
  {
    if n < 0x10 {
    } else if n < 0x20 {
    } else if n < 0x40 {
    } else if n < 0x60 {
    } else if n < 0x80 {
    } else if n < 0xA0 {
    } else if n < 0xC0 {
    } else if n < 0xE0 {
    }
  }

  lemma WordOfInjective(a: Byte, b: Byte)
    requires WordOf(a) == WordOf(b)
    ensures a == b
  {
    WidenInjective(a as bv8, b as bv8);
    ByteBack(a);
    ByteBack(b);
  }

  lemma WordApart(c: bv32, x0: Byte, x1: Byte, x2: Byte, x3: Byte, y0: Byte, y1: Byte, y2: Byte, y3: Byte)
    requires Packed(c, WordOf(x0), WordOf(x1), WordOf(x2), WordOf(x3)) == Packed(c, WordOf(y0), WordOf(y1), WordOf(y2), WordOf(y3))
    ensures x0 == y0 && x1 == y1 && x2 == y2 && x3 == y3
  {
    PackedApart(c, WordOf(x0), WordOf(x1), WordOf(x2), WordOf(x3), WordOf(y0), WordOf(y1), WordOf(y2), WordOf(y3));
    WordOfInjective(x0, y0);
    WordOfInjective(x1, y1);
    WordOfInjective(x2, y2);
    WordOfInjective(x3, y3);
  }

  lemma LanesKeepApart()
    ensures LanesApart(Mix, WordOf, Lane)
  {
    forall c, x0: Byte, x1: Byte, x2: Byte, x3: Byte, y0: Byte, y1: Byte, y2: Byte, y3: Byte
      | Word4(Mix, WordOf, Lane, c, x0, x1, x2, x3) == Word4(Mix, WordOf, Lane, c, y0, y1, y2, y3)
      ensures x0 == y0 && x1 == y1 && x2 == y2 && x3 == y3
    {
      Word4IsPacked(c, x0, x1, x2, x3);
      Word4IsPacked(c, y0, y1, y2, y3);
      WordApart(c, x0, x1, x2, x3, y0, y1, y2, y3);
    }
  }

  lemma FeedFourApart(c: bv32, x: seq<Byte>, y: seq<Byte>)
    requires |x| == |y| == 4
    requires Feed(c, x) == Feed(c, y)
    ensures x == y
  {
    StepByteLinear();
    StepByteInjective();
    ByteStepTakesIn();
    LanesStepDown();
    LanesKeepApart();
    FeedWordInjective(ByteStep, StepByte, Mix, WordOf, Lane, c, x, y);
  }

  lemma BurstApart(c: bv32, x: seq<Byte>, y: seq<Byte>)
    requires |x| == |y| <= 4
    requires Feed(c, x) == Feed(c, y)
    ensures x == y
  {
    var pad: seq<Byte> := seq(4 - |x|, _ => 0);
    FeedConcat(c, x, pad);
    FeedConcat(c, y, pad);
    FeedFourApart(c, x + pad, y + pad);
    assert x == (x + pad)[..|x|] && y == (y + pad)[..|y|];
  }

  /** Any change confined to four consecutive bytes changes the register, whatever
      comes before and after it. */
  lemma BurstChangesFeed(crc: bv32, before: seq<Byte>, x: seq<Byte>, y: seq<Byte>, after: seq<Byte>)
    requires |x| == |y| <= 4 && x != y
    ensures Feed(crc, before + x + after) != Feed(crc, before + y + after)
  {
    var c := Feed(crc, before);
    FeedConcat(crc, before, x);
    FeedConcat(crc, before, y);
    FeedConcat(crc, before + x, after);
    FeedConcat(crc, before + y, after);
    if Feed(Feed(c, x), after) == Feed(Feed(c, y), after) {
      ByteStepApart();
      FeedInjective(ByteStep, Feed(c, x), Feed(c, y), after);
      BurstApart(c, x, y);
    }
  }

  lemma BurstChangesCrc(before: seq<Byte>, x: seq<Byte>, y: seq<Byte>, after: seq<Byte>)
    requires |x| == |y| <= 4 && x != y
    ensures Crc32(before + x + after) != Crc32(before + y + after)
  {
    BurstChangesFeed(SEED, before, x, y, after);
    if Crc32(before + x + after) == Crc32(before + y + after) {
      FinalInjective(Feed(SEED, before + x + after), Feed(SEED, before + y + after));
    }
  }

  // Known values.

  function EightSteps(x: bv32): bv32 {
    BitStep(BitStep(BitStep(BitStep(BitStep(BitStep(BitStep(BitStep(x))))))))
  }

  lemma OneByte(c: bv32, b: Byte, d: bv32)
    requires EightSteps(c ^ WordOf(b)) == d
    ensures ByteStep(c, b) == d
  {
    var x := Mix(c, WordOf(b));
    BitsSucc(x, 0);
    BitsSucc(x, 1);
    BitsSucc(x, 2);
    BitsSucc(x, 3);
    BitsSucc(x, 4);
    BitsSucc(x, 5);
    BitsSucc(x, 6);
    BitsSucc(x, 7);
  }

  lemma FourBytes(c: bv32, s: seq<Byte>, c1: bv32, c2: bv32, c3: bv32, c4: bv32)
    requires |s| == 4
    requires ByteStep(c, s[0]) == c1 && ByteStep(c1, s[1]) == c2 && ByteStep(c2, s[2]) == c3 && ByteStep(c3, s[3]) == c4
    ensures Feed(c, s) == c4
  {
    FeedByFour(ByteStep, c, s);
  }

  lemma FirstDigits()
    ensures Feed(SEED, [49, 50, 51, 52]) == 0x641C1F5C
  {
    OneByte(0xFFFFFFFF, 49, 0x7C231048);
    OneByte(0x7C231048, 50, 0xB0ACBB32);
    OneByte(0xB0ACBB32, 51, 0x77B79C2D);
    OneByte(0x77B79C2D, 52, 0x641C1F5C);
    FourBytes(SEED, [49, 50, 51, 52], 0x7C231048, 0xB0ACBB32, 0x77B79C2D, 0x641C1F5C);
  }

  lemma MoreDigits()
    ensures Feed(0x641C1F5C, [53, 54, 55, 56]) == 0x651F2550
  {
    OneByte(0x641C1F5C, 53, 0x340AC5E3);
    OneByte(0x340AC5E3, 54, 0xF68D2C9E);
    OneByte(0xF68D2C9E, 55, 0xAFFC9660);
    OneByte(0xAFFC9660, 56, 0x651F2550);
    FourBytes(0x641C1F5C, [53, 54, 55, 56], 0x340AC5E3, 0xF68D2C9E, 0xAFFC9660, 0x651F2550);
  }

  /** The check value of this CRC: that of the nine digits 1 to 9. */
  lemma CheckValue()
    ensures Crc32([49, 50, 51, 52, 53, 54, 55, 56, 57]) == 0xCBF4_3926
  {
    OneByte(0x651F2550, 57, 0x340BC6D9);
    var first, second := [49 as Byte, 50, 51, 52], [53 as Byte, 54, 55, 56];
    FirstDigits();
    MoreDigits();
    FeedConcat(SEED, first, second);
    FeedConcat(SEED, first + second, [57]);
    FeedOne(0x651F2550, 57);
    assert first + second + [57] == [49, 50, 51, 52, 53, 54, 55, 56, 57];
    FinalCheck();
  }

  lemma FeedOne(c: bv32, b: Byte)
    ensures Feed(c, [b]) == ByteStep(c, b)
  {
    FeedByOne(ByteStep, c, b);
  }

  lemma FeedByOne<R>(f: Step<R>, c: R, b: Byte)
    ensures FeedBy(f, c, [b]) == f(c, b)
  {
    assert [b][..0] == [];
    assert FeedBy(f, c, []) == c;
  }

  lemma FinalCheck()
    ensures Final(0x340BC6D9) == 0xCBF4_3926
  {
    var register: bv32 := 0x340BC6D9;
    assert !register == 0xCBF4_3926;
  }
}
