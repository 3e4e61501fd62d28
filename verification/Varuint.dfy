/** Unsigned LEB128 as in `relay_sdk/protocol.py` (section 7.6 of DWARF 5). */
module Varuint {
  import opened Common

  newtype byte = x: int | 0 <= x < 256

  /** 128^n: the decoder accepts ten groups of seven bits. */
  function Pow128(n: nat): (p: nat)
    ensures p > 0
  {
    if n == 0 then 1 else 128 * Pow128(n - 1)
  }

  const MAX_GROUPS := 10
  const LIMIT: nat := 1180591620717411303424  // 2^70

  function Leb(v: nat): (out: seq<byte>)
    ensures out != []
  {
    if v < 128 then [v as byte] else [(v % 128 + 128) as byte] + Leb(v / 128)
  }

  /** `n` groups have been read already; the answer is the value of the remaining groups and the end offset. */
  function Dec(data: seq<byte>, offset: nat, n: nat): Result<(nat, nat)>
    decreases |data| - offset
  {
    if offset >= |data| then Err
    else
      var b := data[offset] as nat;
      if b < 128 then Ok((b, offset + 1))
      else if n + 1 >= MAX_GROUPS then Err
      else
        var r := Dec(data, offset + 1, n + 1);
        if r.Err? then Err else Ok((b - 128 + 128 * r.value.0, r.value.1))
  }

  method EncodeVaruint(value: int) returns (r: Result<seq<byte>>)
    ensures r == if value < 0 then Err else Ok(Leb(value))
  {
    if value < 0 {
      return Err;
    }
    var v: nat := value;
    var out := [];
    while v > 0x7F
      invariant out + Leb(v) == Leb(value)
    {
      out := out + [(v % 128 + 128) as byte];
      v := v / 128;
    }
    return Ok(out + [v as byte]);
  }

  function Lift(value: nat, scale: nat, r: Result<(nat, nat)>): Result<(nat, nat)> {
    if r.Err? then Err else Ok((value + scale * r.value.0, r.value.1))
  }

  lemma LiftStep(value: nat, scale: nat, low: nat, high: nat)
    ensures value + scale * (low + 128 * high) == (value + low * scale) + (128 * scale) * high
    ensures value + scale * low == value + low * scale
  {
  }

  /** `value | (b & 0x7F) << shift`, where the bits of `value` lie below the shift. */
  function AddGroup(value: nat, b: nat, scale: nat): nat { value + (b % 128) * scale }

  /** `1 << shift` for the shifts the decoder uses. */
  function Scale(shift: nat): nat { Pow128(shift / 7) }

  lemma ScaleAt(n: nat)
    ensures Scale(7 * n) == Pow128(n)
  {
    assert 7 * n / 7 == n;
  }

  /** The last group ends the value. */
  lemma LiftLast(value: nat, n: nat, data: seq<byte>, offset: nat)
    requires n < MAX_GROUPS && offset < |data| && data[offset] < 128
    ensures Lift(value, Pow128(n), Dec(data, offset, n))
            == Ok((AddGroup(value, data[offset] as nat, Pow128(n)), offset + 1))
  {
    LiftStep(value, Pow128(n), data[offset] as nat, 0);
  }

  /** Any other group is added in, and the scale grows by its seven bits. */
  lemma LiftMore(value: nat, n: nat, data: seq<byte>, offset: nat)
    requires n < MAX_GROUPS && offset < |data| && data[offset] >= 128
    ensures Lift(value, Pow128(n), Dec(data, offset, n)) ==
            if n + 1 == MAX_GROUPS then Err
            else Lift(AddGroup(value, data[offset] as nat, Pow128(n)), Pow128(n + 1), Dec(data, offset + 1, n + 1))
  {
    var (low, scale) := (data[offset] as nat - 128, Pow128(n));
    assert AddGroup(value, data[offset] as nat, scale) == value + low * scale;
    if n + 1 < MAX_GROUPS {
      var rest := Dec(data, offset + 1, n + 1);
      if rest.Ok? {
        LiftStep(value, scale, low, rest.value.0);
        assert Pow128(n + 1) == 128 * scale;
      }
    }
  }

  method DecodeVaruint(data: seq<byte>, start: nat) returns (r: Result<(nat, nat)>)
    ensures r == Dec(data, start, 0)
  {
    var offset: nat, shift: nat, value: nat := start, 0, 0;
    ghost var n: nat := 0;
    while true
      invariant shift == 7 * n && n < MAX_GROUPS
      invariant Dec(data, start, 0) == Lift(value, Pow128(n), Dec(data, offset, n))
      decreases MAX_GROUPS - n
    {
      if offset >= |data| {
        return Err;
      }
      var b := data[offset] as nat;
      ScaleAt(n);
      if b < 128 { LiftLast(value, n, data, offset); } else { LiftMore(value, n, data, offset); }
      offset := offset + 1;
      value := AddGroup(value, b, Scale(shift));
      if b < 0x80 {
        return Ok((value, offset));
      }
      shift := shift + 7;
      n := n + 1;
      if shift > 63 {
        return Err;
      }
    }
    return Err;
  }

  lemma LimitIsPow()
    ensures Pow128(MAX_GROUPS) == LIMIT
  {
    assert Pow128(5) == 34359738368;
    assert Pow128(7) == 128 * Pow128(6) && Pow128(8) == 128 * Pow128(7);
    assert Pow128(10) == 128 * Pow128(9) && Pow128(9) == 128 * Pow128(8);
  }

  /** Where `Leb(v)` stands in the data, the decoder reads it back exactly when enough groups remain. */
  lemma {:induction false} DecLeb(data: seq<byte>, offset: nat, n: nat, v: nat)
    requires n < MAX_GROUPS && offset + |Leb(v)| <= |data| && data[offset..offset + |Leb(v)|] == Leb(v)
    ensures Dec(data, offset, n) == if v < Pow128(MAX_GROUPS - n) then Ok((v, offset + |Leb(v)|)) else Err
    decreases v
  {
    assert data[offset] == Leb(v)[0];
    if v >= 128 {
      assert Leb(v)[1..] == Leb(v / 128);
      assert data[offset + 1..offset + |Leb(v)|] == Leb(v / 128);
      assert v < Pow128(MAX_GROUPS - n) <==> v / 128 < Pow128(MAX_GROUPS - n - 1);
      if n + 1 < MAX_GROUPS {
        DecLeb(data, offset + 1, n + 1, v / 128);
      } else {
        assert Pow128(1) == 128 * Pow128(0);
      }
    } else {
      assert Pow128(MAX_GROUPS - n) == 128 * Pow128(MAX_GROUPS - n - 1);
    }
  }

  /** decode(encode(v) ++ rest) is v with its exact length iff v < 2^70; larger values are rejected. */
  lemma VaruintRoundTrip(before: seq<byte>, v: nat, rest: seq<byte>)
    ensures Dec(before + Leb(v) + rest, |before|, 0) == if v < LIMIT then Ok((v, |before| + |Leb(v)|)) else Err
  {
    LimitIsPow();
    DecLeb(before + Leb(v) + rest, |before|, 0, v);
  }

  /** A successful decode stays in bounds and consumes one to ten bytes; the value fits the limit. */
  lemma {:induction false} DecBounds(data: seq<byte>, offset: nat, n: nat)
    requires n < MAX_GROUPS && Dec(data, offset, n).Ok?
    ensures var (v, end) := Dec(data, offset, n).value;
            offset < end <= |data| && end <= offset + MAX_GROUPS - n && v < Pow128(MAX_GROUPS - n)
    decreases |data| - offset
  {
    assert Pow128(MAX_GROUPS - n) == 128 * Pow128(MAX_GROUPS - n - 1);
    if data[offset] >= 128 {
      DecBounds(data, offset + 1, n + 1);
    }
  }

  /** Of all byte strings decoding to v, `Leb(v)` is the unique shortest. */
  lemma {:induction false} LebIsShortest(data: seq<byte>, offset: nat, n: nat)
    requires n < MAX_GROUPS && Dec(data, offset, n).Ok?
    ensures var (v, end) := Dec(data, offset, n).value;
            offset < end <= |data| && |Leb(v)| <= end - offset
            && (|Leb(v)| == end - offset ==> data[offset..end] == Leb(v))
    decreases |data| - offset
  {
    if data[offset] >= 128 {
      LebIsShortest(data, offset + 1, n + 1);
      var (v, end) := Dec(data, offset, n).value;
      var (w, _) := Dec(data, offset + 1, n + 1).value;
      if w > 0 {
        assert v / 128 == w && v % 128 == data[offset] as nat - 128;
        assert data[offset..end] == [data[offset]] + data[offset + 1..end];
      }
    }
  }

  /** What decodes inside a prefix decodes the same way in the whole. */
  lemma {:induction false} DecPrefix(data: seq<byte>, cut: nat, offset: nat, n: nat)
    requires cut <= |data| && Dec(data[..cut], offset, n).Ok?
    ensures Dec(data, offset, n) == Dec(data[..cut], offset, n)
    decreases cut - offset
  {
    if data[offset] >= 128 {
      DecPrefix(data, cut, offset + 1, n + 1);
    }
  }

  /** In numbers: values below 2^70 come back, larger ones are rejected. */
  lemma TenGroups(v: nat, rest: seq<byte>)
    ensures Dec(Leb(v) + rest, 0, 0) == if v < 1180591620717411303424 then Ok((v, |Leb(v)|)) else Err
  {
    VaruintRoundTrip([], v, rest);
    assert [] + Leb(v) + rest == Leb(v) + rest;
  }
}
