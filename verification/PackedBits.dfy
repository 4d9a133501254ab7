/** Fixed-width fields packed back to back in a byte buffer, and the RSSI codes kept in them. */
module PackedBits {

  function Mask(k: nat): bv8
    requires k < 8
  {
    if k == 0 then 0x01 else if k == 1 then 0x02 else if k == 2 then 0x04 else if k == 3 then 0x08
    else if k == 4 then 0x10 else if k == 5 then 0x20 else if k == 6 then 0x40 else 0x80
  }

  function Bit(b: bv8, k: nat): bool
    requires k < 8
  {
    b & Mask(k) != 0
  }

  function WithBit(b: bv8, k: nat, on: bool): bv8
    requires k < 8
  {
    if on then b | Mask(k) else b & !Mask(k)
  }

  lemma WithBitOnly(b: bv8, k: nat, on: bool, j: nat)
    requires k < 8 && j < 8
    ensures Bit(WithBit(b, k, on), j) == if j == k then on else Bit(b, j)
  {}

  /** Bit `p` of the whole buffer, counting from the low bit of byte 0. */
  function BitAt(s: seq<bv8>, p: nat): bool
    requires p < 8 * |s|
  {
    Bit(s[p / 8], p % 8)
  }

  function Pow2(k: nat): (r: nat)
    ensures r > 0
  {
    if k == 0 then 1 else 2 * Pow2(k - 1)
  }

  /** Bit `k` of a value: `(value >> k) & 1`. */
  function ValueBit(value: nat, k: nat): bool {
    value / Pow2(k) % 2 == 1
  }

  /** The value of `count` buffer bits from `start`, low bit first. */
  function Gather(s: seq<bv8>, start: nat, count: nat): (value: nat)
    requires start + count <= 8 * |s|
    ensures value < Pow2(count)
  {
    if count == 0 then 0
    else Gather(s, start, count - 1) + (if BitAt(s, start + count - 1) then Pow2(count - 1) else 0)
  }

  function Field(s: seq<bv8>, index: nat, width: nat): nat
    requires index * width + width <= 8 * |s|
  {
    Gather(s, index * width, width)
  }

  /** `bitarray_get`. */
  method BitarrayGet(buffer: array<bv8>, index: nat, width: nat) returns (value: nat)
    requires index * width + width <= 8 * buffer.Length
    ensures value == Field(buffer[..], index, width)
  {
    value := 0;
    var position := index * width;
    var bit := 0;
    ghost var start, s := position, buffer[..];
    while bit < width
      invariant 0 <= bit <= width && position == start + bit && start + width <= 8 * |s|
      invariant value == Gather(s, start, bit)
    {
      if Bit(buffer[position / 8], position % 8) {
        value := value + Pow2(bit);
      }
      position := position + 1;
      bit := bit + 1;
    }
  }

  /** `bitarray_put`. */
  method BitarrayPut(buffer: array<bv8>, index: nat, width: nat, value: nat)
    requires index * width + width <= 8 * buffer.Length
    modifies buffer
    ensures forall p :: 0 <= p < 8 * buffer.Length ==>
      BitAt(buffer[..], p) ==
      if index * width <= p < index * width + width then ValueBit(value, p - index * width) else BitAt(old(buffer[..]), p)
  {
    ghost var start := index * width;
    ghost var was := buffer[..];
    var position := index * width;
    var bit := 0;
    while bit < width
      invariant 0 <= bit <= width
      invariant position == start + bit
      invariant forall p :: 0 <= p < 8 * buffer.Length ==>
        BitAt(buffer[..], p) == if start <= p < start + bit then ValueBit(value, p - start) else BitAt(was, p)
    {
      ghost var before := buffer[..];
      var on := ValueBit(value, bit);
      buffer[position / 8] := WithBit(buffer[position / 8], position % 8, on);
      ghost var after := buffer[..];
      forall p | 0 <= p < 8 * buffer.Length
        ensures BitAt(after, p) == if p == position then on else BitAt(before, p)
      {
        WithBitOnly(before[position / 8], position % 8, on, p % 8);
        assert p == 8 * (p / 8) + p % 8 && position == 8 * (position / 8) + position % 8;
      }
      position := position + 1;
      bit := bit + 1;
    }
  }

  /** The result of BitarrayPut, as a relation between the buffers. */
  ghost predicate Stored(s: seq<bv8>, t: seq<bv8>, start: nat, width: nat, value: nat) {
    && |s| == |t|
    && start + width <= 8 * |s|
    && forall p :: 0 <= p < 8 * |s| ==>
         BitAt(t, p) == if start <= p < start + width then ValueBit(value, p - start) else BitAt(s, p)
  }

  lemma Pow2Step(value: nat, k: nat)
    ensures value / Pow2(k + 1) == value / Pow2(k) / 2
    ensures value % Pow2(k + 1) == value % Pow2(k) + (if ValueBit(value, k) then Pow2(k) else 0)
  {
    var m := Pow2(k);
    var q, r := value / m, value % m;
    assert value == m * q + r;
    assert Pow2(k + 1) == 2 * m;
    SplitQuotient(value, m, q, r);
  }

  lemma SplitQuotient(value: nat, m: nat, q: nat, r: nat)
    requires m > 0 && value == m * q + r && r < m
    ensures value / (2 * m) == q / 2
    ensures value % (2 * m) == r + (if q % 2 == 1 then m else 0)
  {
    var h := q / 2;
    assert m * (2 * h) == (2 * m) * h;
    if q % 2 == 1 {
      assert q == 2 * h + 1;
      assert m * q == m * (2 * h) + m;
      Quotient(value, 2 * m, h, m + r);
    } else {
      assert q == 2 * h;
      Quotient(value, 2 * m, h, r);
    }
  }

  lemma Quotient(value: nat, d: nat, h: nat, r: nat)
    requires d > 0 && value == d * h + r && r < d
    ensures value / d == h && value % d == r
  {
    var q := value / d;
    assert value == d * q + value % d;
    if q > h {
      StepApart(d, h, q);
    } else if q < h {
      StepApart(d, q, h);
    }
  }

  lemma StepApart(d: nat, a: nat, b: nat)
    requires a < b
    ensures d * a + d <= d * b
  {
    assert d * (a + 1) == d * a + d;
    assert d * (a + 1) <= d * b;
  }

  lemma {:induction false} GatherStored(s: seq<bv8>, t: seq<bv8>, start: nat, width: nat, value: nat, count: nat)
    requires Stored(s, t, start, width, value) && count <= width
    ensures Gather(t, start, count) == value % Pow2(count)
  {
    if count > 0 {
      GatherStored(s, t, start, width, value, count - 1);
      Pow2Step(value, count - 1);
      assert BitAt(t, start + count - 1) == ValueBit(value, count - 1);
    }
  }

  lemma {:induction false} GatherKept(s: seq<bv8>, t: seq<bv8>, start: nat, width: nat, value: nat, from: nat, count: nat)
    requires Stored(s, t, start, width, value)
    requires from + count <= 8 * |s| && (from + count <= start || start + width <= from)
    ensures Gather(t, from, count) == Gather(s, from, count)
  {
    if count > 0 {
      GatherKept(s, t, start, width, value, from, count - 1);
      assert BitAt(t, from + count - 1) == BitAt(s, from + count - 1);
    }
  }

  lemma FieldsApart(a: nat, b: nat, width: nat)
    requires a < b
    ensures 0 <= a * width && a * width + width <= b * width
  {
    StepApart(width, a, b);
  }

  /** A field reads back what was put in it, reduced to its width, and no other field changes. */
  lemma PutThenGet(s: seq<bv8>, t: seq<bv8>, index: nat, width: nat, value: nat, other: nat)
    requires index * width + width <= 8 * |s| && other * width + width <= 8 * |s|
    requires Stored(s, t, index * width, width, value)
    ensures |t| == |s| && Field(t, index, width) == value % Pow2(width)
    ensures other != index ==> Field(t, other, width) == Field(s, other, width)
  {
    GatherStored(s, t, index * width, width, value, width);
    if other < index {
      FieldsApart(other, index, width);
      PutElsewhere(s, t, index * width, width, value, other * width);
    } else if index < other {
      FieldsApart(index, other, width);
      PutElsewhere(s, t, index * width, width, value, other * width);
    }
  }

  lemma PutElsewhere(s: seq<bv8>, t: seq<bv8>, start: nat, width: nat, value: nat, from: int)
    requires Stored(s, t, start, width, value)
    requires 0 <= from && from + width <= 8 * |s| && (from + width <= start || start + width <= from)
    ensures Gather(t, from, width) == Gather(s, from, width)
  {
    GatherKept(s, t, start, width, value, from, width);
  }

  // RSSI codes: the magnitude of a negative dBm value, 127 for "no reading".

  const RSSI_BITS: nat := 7
  const MISSING: nat := 127

  type Code = n: nat | n < 128

  function Encode(dbm: int): Code {
    if -127 < dbm < 0 then -dbm else MISSING
  }

  function Decode(code: Code): int {
    -(code as int)
  }

  /** A 7-bit field keeps every RSSI code, so a ring of them is a sequence of codes. */
  lemma CodesKept(s: seq<bv8>, t: seq<bv8>, count: nat, index: nat, dbm: int)
    requires index < count && count * RSSI_BITS <= 8 * |s|
    requires Stored(s, t, index * RSSI_BITS, RSSI_BITS, Encode(dbm))
    ensures forall j :: 0 <= j < count ==>
      Field(t, j, RSSI_BITS) == if j == index then Encode(dbm) else Field(s, j, RSSI_BITS)
    ensures -127 < dbm < 0 ==> Decode(Field(t, index, RSSI_BITS)) == dbm
  {
    assert Pow2(7) == 128;
    forall j | 0 <= j < count
      ensures Field(t, j, RSSI_BITS) == if j == index then Encode(dbm) else Field(s, j, RSSI_BITS)
    {
      PutThenGet(s, t, index, RSSI_BITS, Encode(dbm), j);
    }
  }
}
