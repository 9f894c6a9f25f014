/** What both character drivers do with their fixed-size buffer: bounded copies at a file offset. */
module DeviceBuffer {

  type byte = x: int | 0 <= x < 256

  function Min(a: nat, b: nat): nat {
    if a < b then a else b
  }

  /** Bytes a call of `length` at `pos` may transfer: never past the end of the buffer. */
  function Room(size: nat, pos: nat, length: nat): (n: nat)
    requires pos <= size
    ensures n <= length && pos + n <= size
    ensures n == length || pos + n == size
  {
    if size - pos > length then length else size - pos
  }

  /** The buffer with `data` written at `pos`. */
  function Overlay(buf: seq<byte>, pos: nat, data: seq<byte>): (r: seq<byte>)
    requires pos + |data| <= |buf|
    ensures |r| == |buf|
    ensures forall i :: 0 <= i < |buf| ==> r[i] == if pos <= i < pos + |data| then data[i - pos] else buf[i]
  {
    buf[..pos] + data + buf[pos + |data|..]
  }

  function Zeros(n: nat): (r: seq<byte>)
    ensures |r| == n && forall i :: 0 <= i < n ==> r[i] == 0
  {
    seq(n, _ => 0)
  }

  lemma OverlayNothing(buf: seq<byte>, pos: nat)
    requires pos <= |buf|
    ensures Overlay(buf, pos, []) == buf
  {}

  lemma OverlayTwice(buf: seq<byte>, pos: nat, a: seq<byte>, b: seq<byte>)
    requires pos + |a| + |b| <= |buf|
    ensures Overlay(Overlay(buf, pos, a), pos + |a|, b) == Overlay(buf, pos, a + b)
  {}

  lemma OverlayReadsBack(buf: seq<byte>, pos: nat, data: seq<byte>)
    requires pos + |data| <= |buf|
    ensures Overlay(buf, pos, data)[pos..pos + |data|] == data
  {}

  function Sum(lengths: seq<nat>): nat {
    if lengths == [] then 0 else lengths[0] + Sum(lengths[1..])
  }

  /** Two transfers in a row reach as far as one of their total length. */
  lemma RoomSplits(size: nat, pos: nat, a: nat, b: nat)
    requires pos <= size
    ensures Room(size, pos, a + b) == Room(size, pos, a) + Room(size, pos + Room(size, pos, a), b)
  {}

  /** And transfer the same bytes. */
  lemma DataSplits(size: nat, pos: nat, a: seq<byte>, b: seq<byte>)
    requires pos <= size
    ensures var n := Room(size, pos, |a|);
            (a + b)[..Room(size, pos, |a + b|)] == a[..n] + b[..Room(size, pos + n, |b|)]
  {
    RoomSplits(size, pos, |a|, |b|);
  }
}
