/** The first step of `ImageProxy.toBitmap`: the three camera planes are copied
    into one NV21 byte array, luma first, then V, then U. The JPEG round trip and
    the rotation that follow are platform codecs and are not part of this model. */
module BitmapUtils {

  type byte = bv8

  /** A plane's `ByteBuffer`: its bytes up to the limit and a read position.
      `remaining()` is the number of bytes between the two. */
  class ByteBuffer {
    const content: seq<byte>
    var position: nat

    ghost predicate Valid()
      reads this
    {
      position <= |content|
    }

    /** `remaining()`. */
    function Remaining(): nat
      reads this
      requires Valid()
    {
      |content| - position
    }

    /** The bytes a relative read would deliver next. */
    function Rest(): seq<byte>
      reads this
      requires Valid()
    {
      content[position..]
    }

    constructor (content: seq<byte>)
      ensures Valid() && this.content == content && position == 0
    {
      this.content := content;
      position := 0;
    }

    /** `get(dst, offset, length)`: copies the next `length` bytes into
        `dst[offset..offset + length]` and advances the position past them.
        When the range does not fit in `dst`, or fewer than `length` bytes
        remain, the platform throws before copying; then `ok` is false and
        nothing changes. */
    method Get(dst: array<byte>, offset: nat, length: nat) returns (ok: bool)
      requires Valid()
      modifies this, dst
      ensures Valid()
      ensures ok <==> offset + length <= dst.Length && length <= old(Remaining())
      ensures ok ==> position == old(position) + length
      ensures ok ==> dst[..] == old(dst[..offset]) + old(Rest()[..length]) + old(dst[offset + length..])
      ensures !ok ==> position == old(position) && dst[..] == old(dst[..])
    {
      ok := offset + length <= dst.Length && length <= |content| - position;
      if !ok {
        return;
      }
      var i := 0;
      while i < length
        invariant 0 <= i <= length
        invariant position == old(position)
        invariant forall k :: 0 <= k < dst.Length ==>
          dst[k] == if offset <= k < offset + i then content[position + k - offset] else old(dst[k])
      {
        dst[offset + i] := content[position + i];
        i := i + 1;
      }
      ghost var copied := old(dst[..offset]) + old(Rest()[..length]) + old(dst[offset + length..]);
      assert dst[..] == copied by {
        forall k | 0 <= k < dst.Length ensures dst[k] == copied[k] {
          if k < offset {
          } else if k < offset + length {
            assert copied[k] == old(Rest())[k - offset];
          } else {
            assert copied[k] == old(dst[offset + length..])[k - offset - length];
          }
        }
      }
      position := position + length;
    }
  }

  /** The NV21 layout of three planes: all of Y, then all of V, then all of U. */
  function Nv21(y: seq<byte>, u: seq<byte>, v: seq<byte>): seq<byte> {
    y + v + u
  }

  /** The NV21 buffer splits into the three planes at `|y|` and `|y| + |v|`:
      Y first, V in the middle, U last, and nothing else. */
  lemma Nv21Regions(y: seq<byte>, u: seq<byte>, v: seq<byte>)
    ensures |Nv21(y, u, v)| == |y| + |u| + |v|
    ensures Nv21(y, u, v)[..|y|] == y
    ensures Nv21(y, u, v)[|y|..|y| + |v|] == v
    ensures Nv21(y, u, v)[|y| + |v|..] == u
  {
    var b := Nv21(y, u, v);
    assert b[..|y|] == y;
    assert b[|y|..|y| + |v|] == v;
    assert b[|y| + |v|..] == u;
  }

  /** The plane a byte of the NV21 buffer comes from, and its index there. */
  datatype PlaneByte = LumaByte(at: nat) | VByte(at: nat) | UByte(at: nat)

  /** Which plane's copy writes position `i` of a buffer of `ySize + vSize + uSize`
      bytes: the three destination ranges of the copies, in order. */
  function SourceOf(ySize: nat, uSize: nat, vSize: nat, i: nat): (p: PlaneByte)
    requires i < ySize + uSize + vSize
    ensures p.LumaByte? ==> p.at < ySize && i == p.at
    ensures p.VByte? ==> p.at < vSize && i == ySize + p.at
    ensures p.UByte? ==> p.at < uSize && i == ySize + vSize + p.at
  {
    if i < ySize then LumaByte(i)
    else if i < ySize + vSize then VByte(i - ySize)
    else UByte(i - ySize - vSize)
  }

  /** Every byte of the buffer is the byte of the plane `SourceOf` names: the three
      copies leave no gap and overlap nowhere. */
  lemma Nv21ByteSource(y: seq<byte>, u: seq<byte>, v: seq<byte>, i: nat)
    requires i < |y| + |u| + |v|
    ensures |Nv21(y, u, v)| == |y| + |u| + |v|
    ensures Nv21(y, u, v)[i] == match SourceOf(|y|, |u|, |v|, i)
      case LumaByte(k) => y[k]
      case VByte(k) => v[k]
      case UByte(k) => u[k]
  {
  }

  /** The NV21 assembly of `toBitmap`: allocate `ySize + uSize + vSize` bytes, then
      read plane 0 (Y) to offset 0, plane 2 (V) to offset `ySize` and plane 1 (U)
      to offset `ySize + vSize`. Each read takes a whole plane, so every plane is
      left with nothing remaining, and none of the three reads can throw. */
  method ToNv21(yBuffer: ByteBuffer, uBuffer: ByteBuffer, vBuffer: ByteBuffer) returns (nv21: array<byte>)
    requires yBuffer.Valid() && uBuffer.Valid() && vBuffer.Valid()
    requires yBuffer != uBuffer && yBuffer != vBuffer && uBuffer != vBuffer
    modifies yBuffer, uBuffer, vBuffer
    ensures fresh(nv21)
    ensures nv21[..] == Nv21(old(yBuffer.Rest()), old(uBuffer.Rest()), old(vBuffer.Rest()))
    ensures yBuffer.Valid() && uBuffer.Valid() && vBuffer.Valid()
    ensures yBuffer.Remaining() == 0 && uBuffer.Remaining() == 0 && vBuffer.Remaining() == 0
  {
    var ySize := yBuffer.Remaining();
    var uSize := uBuffer.Remaining();
    var vSize := vBuffer.Remaining();
    ghost var y, u, v := yBuffer.Rest(), uBuffer.Rest(), vBuffer.Rest();

    nv21 := new byte[ySize + uSize + vSize];

    var ok := yBuffer.Get(nv21, 0, ySize);
    assert ok;
    assert nv21[..ySize] == y;
    ok := vBuffer.Get(nv21, ySize, vSize);
    assert ok;
    assert nv21[..ySize + vSize] == y + v;
    ok := uBuffer.Get(nv21, ySize + vSize, uSize);
    assert ok;
    assert nv21[..] == y + v + u;
  }
}
