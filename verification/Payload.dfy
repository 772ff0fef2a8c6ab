/**
 The packed payload codec (pkg/rkcy/payload.go): an instance and its related bytes in one
 slice, "rkcy", the offset of the related bytes as a little-endian uint32, then both.

 A nil slice and an empty one are the same here, as they are to the codec.
 */
module Payloads {
  import opened Wrappers

  newtype Byte = x: int | 0 <= x < 256

  const TWO32 := 0x1_0000_0000

  /** "rkcy" */
  const MAGIC: seq<Byte> := [0x72, 0x6b, 0x63, 0x79]

  // ---------- little-endian uint32 ----------

  function PutUint32(n: int): (r: seq<Byte>)
    requires 0 <= n < TWO32
    ensures |r| == 4
  {
    [(n % 256) as Byte, (n / 256 % 256) as Byte, (n / 65536 % 256) as Byte, (n / 16777216) as Byte]
  }

  function Uint32(b: seq<Byte>): (r: int)
    requires |b| == 4
    ensures 0 <= r < TWO32
  {
    b[0] as int + 256 * (b[1] as int) + 65536 * (b[2] as int) + 16777216 * (b[3] as int)
  }

  lemma Uint32RoundTrip(n: int)
    requires 0 <= n < TWO32
    ensures Uint32(PutUint32(n)) == n
  {
    var q1, q2, q3 := n / 256, n / 65536, n / 16777216;
    assert q2 == q1 / 256 && q3 == q2 / 256;
    assert n == 256 * q1 + n % 256 && q1 == 256 * q2 + q1 % 256 && q2 == 256 * q3 + q2 % 256;
  }

  lemma PutUint32RoundTrip(b: seq<Byte>)
    requires |b| == 4
    ensures PutUint32(Uint32(b)) == b
  {
    var n := Uint32(b);
    assert n / 256 == b[1] as int + 256 * (b[2] as int) + 65536 * (b[3] as int);
    assert n / 65536 == b[2] as int + 256 * (b[3] as int);
    assert n / 16777216 == b[3] as int;
  }

  // ---------- the codec ----------

  predicate IsPackedPayload(p: seq<Byte>) { |p| > 4 && p[..4] == MAGIC }

  datatype Parts = Parts(inst: seq<Byte>, rel: seq<Byte>)

  /** None is a panic: packed payloads are not packed again. The offset is cut to 32 bits. */
  function PackPayloads(payload0: seq<Byte>, payload1: seq<Byte>): (r: Option<seq<Byte>>)
    ensures r.Some? ==> IsPackedPayload(r.value)
  {
    if IsPackedPayload(payload0) || IsPackedPayload(payload1) then None
    else
      var packed := MAGIC + PutUint32((8 + |payload0|) % TWO32) + payload0 + payload1;
      assert packed[..4] == MAGIC;
      Some(packed)
  }

  /** None is an error. */
  function UnpackPayloads(packed: seq<Byte>): Option<Parts> {
    if |packed| < 8 then None
    else if packed[..4] != MAGIC then None
    else
      var offset := Uint32(packed[4..8]);
      if offset < 8 || offset > |packed| % TWO32 then None
      else if packed[8..offset] == [] then None
      else Some(Parts(packed[8..offset], packed[offset..]))
  }

  function ParsePayload(payload: seq<Byte>): Option<Parts> {
    if IsPackedPayload(payload) then UnpackPayloads(payload) else Some(Parts(payload, []))
  }

  // ---------- the buffer ----------

  method CopyInto(buffer: array<Byte>, at: nat, src: seq<Byte>)
    requires at + |src| <= buffer.Length
    modifies buffer
    ensures buffer[..] == old(buffer[..at]) + src + old(buffer[at + |src|..])
  {
    for i := 0 to |src|
      invariant buffer[..] == old(buffer[..at]) + src[..i] + old(buffer[at + i..])
    {
      buffer[at + i] := src[i];
    }
    assert src[..|src|] == src;
  }

  method PackIntoBuffer(payload0: seq<Byte>, payload1: seq<Byte>) returns (r: Option<seq<Byte>>)
    ensures r == PackPayloads(payload0, payload1)
  {
    if IsPackedPayload(payload0) || IsPackedPayload(payload1) { return None; }
    var packed := new Byte[8 + |payload0| + |payload1|];
    CopyInto(packed, 0, MAGIC);
    assert packed[..4] == MAGIC;
    var offset := 8 + |payload0|;
    CopyInto(packed, 4, PutUint32(offset % TWO32));
    assert packed[..8] == MAGIC + PutUint32(offset % TWO32);
    CopyInto(packed, 8, payload0);
    ghost var head := MAGIC + PutUint32(offset % TWO32) + payload0;
    assert packed[..offset] == head;
    CopyInto(packed, offset, payload1);
    assert packed[..] == head + payload1;
    r := Some(packed[..]);
  }

  // ---------- round trips ----------

  lemma PackedShape(a: seq<Byte>, b: seq<Byte>)
    requires PackPayloads(a, b).Some?
    ensures var p := PackPayloads(a, b).value;
            && |p| == 8 + |a| + |b| && p[..4] == MAGIC && Uint32(p[4..8]) == (8 + |a|) % TWO32
            && p[8..8 + |a|] == a && p[8 + |a|..] == b
  {
    var p := PackPayloads(a, b).value;
    assert p[4..8] == PutUint32((8 + |a|) % TWO32);
    Uint32RoundTrip((8 + |a|) % TWO32);
  }

  /** Exactly when unpacking gives back what was packed: the instance is not empty and the
      lengths survive being cut to 32 bits. */
  lemma UnpackPackExact(a: seq<Byte>, b: seq<Byte>)
    requires PackPayloads(a, b).Some?
    ensures UnpackPayloads(PackPayloads(a, b).value) == Some(Parts(a, b)) <==>
              a != [] && 8 + |a| < TWO32 && (8 + |a| + |b|) % TWO32 >= 8 + |a|
  {
    PackedShape(a, b);
    UnpackShape(PackPayloads(a, b).value, a, b);
  }

  lemma UnpackShape(p: seq<Byte>, a: seq<Byte>, b: seq<Byte>)
    requires |p| == 8 + |a| + |b| && p[..4] == MAGIC && Uint32(p[4..8]) == (8 + |a|) % TWO32
    requires p[8..8 + |a|] == a && p[8 + |a|..] == b
    ensures UnpackPayloads(p) == Some(Parts(a, b)) <==>
              a != [] && 8 + |a| < TWO32 && (8 + |a| + |b|) % TWO32 >= 8 + |a|
  {
    var offset := Uint32(p[4..8]);
    if UnpackPayloads(p) == Some(Parts(a, b)) {
      assert |p[8..offset]| == |a|;
    }
  }

  /** In particular for every payload that fits the 32-bit lengths; parsing agrees. */
  lemma ParsePack(a: seq<Byte>, b: seq<Byte>)
    requires PackPayloads(a, b).Some? && a != [] && 8 + |a| + |b| < TWO32
    ensures ParsePayload(PackPayloads(a, b).value) == UnpackPayloads(PackPayloads(a, b).value) == Some(Parts(a, b))
  {
    UnpackPackExact(a, b);
  }

  /** Anything that does not begin with the four magic bytes, or has no more, is an instance without
      related bytes. */
  lemma ParsePlain(p: seq<Byte>)
    requires |p| <= 4 || p[0] != 0x72 || p[1] != 0x6b || p[2] != 0x63 || p[3] != 0x79
    ensures ParsePayload(p) == Some(Parts(p, []))
  {
    assert |p| > 4 ==> (p[..4][0] == p[0] && p[..4][1] == p[1] && p[..4][2] == p[2] && p[..4][3] == p[3]);
  }

  /** The magic bytes and the offset of the related bytes, its lowest byte first, cut to 32 bits. */
  lemma HeaderBytes(a: seq<Byte>, b: seq<Byte>)
    requires PackPayloads(a, b).Some?
    ensures var p := PackPayloads(a, b).value;
            && |p| == 8 + |a| + |b| && p[0] == 0x72 && p[1] == 0x6b && p[2] == 0x63 && p[3] == 0x79
            && p[4] as int + 256 * p[5] as int + 65536 * p[6] as int + 16777216 * p[7] as int
               == (8 + |a|) % 0x1_0000_0000
  {
    PackedShape(a, b);
    var p := PackPayloads(a, b).value;
    assert p[0] == p[..4][0] && p[1] == p[..4][1] && p[2] == p[..4][2] && p[3] == p[..4][3];
    assert p[4] == p[4..8][0] && p[5] == p[4..8][1] && p[6] == p[4..8][2] && p[7] == p[4..8][3];
  }

  /** Packing what was unpacked gives the payload back, unless a part is itself packed,
      which panics. */
  lemma PackUnpack(p: seq<Byte>)
    requires UnpackPayloads(p).Some?
    ensures var u := UnpackPayloads(p).value;
            if IsPackedPayload(u.inst) || IsPackedPayload(u.rel) then PackPayloads(u.inst, u.rel).None?
            else PackPayloads(u.inst, u.rel) == Some(p)
  {
    var u, offset := UnpackPayloads(p).value, Uint32(p[4..8]);
    PutUint32RoundTrip(p[4..8]);
    assert 8 + |u.inst| == offset;
    assert p == p[..4] + p[4..8] + p[8..offset] + p[offset..];
  }

  /** An empty instance packs but does not unpack. */
  lemma EmptyInstance(b: seq<Byte>)
    requires !IsPackedPayload(b)
    ensures PackPayloads([], b).Some? && UnpackPayloads(PackPayloads([], b).value).None?
  {
    PackedShape([], b);
  }
}
