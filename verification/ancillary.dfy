/**
  The arithmetic of control-message buffers (section 5.2 of RFC 3542, on a 64-bit system:
  8-byte alignment, a 16-byte header, 4-byte descriptors), and the loop that sizes the
  buffer before a send.
*/
module Ancillary {
  import opened Wire

  const HEADER: nat := 16
  const FD_SIZE: nat := 4
  const STEP: nat := 128

  function Align(n: nat): nat { (n + 7) / 8 * 8 }

  /** `CMSG_SPACE`, with its cast to a 32-bit unsigned integer. */
  function CmsgSpace(len: nat): nat { (Align(len) + HEADER) % U32 }

  /** How many descriptors the kernel can put in the buffer reserved for `maxFds`. */
  function Slots(maxFds: nat): nat {
    if CmsgSpace(FD_SIZE * maxFds) <= HEADER then 0 else (CmsgSpace(FD_SIZE * maxFds) - HEADER) / FD_SIZE
  }

  /** A header and the descriptors, an odd number of them padded to an even one. */
  lemma SpaceExact(count: nat)
    ensures Align(FD_SIZE * count) + HEADER == 4 * (count + count % 2) + 16
    ensures CmsgSpace(FD_SIZE * count) == (4 * (count + count % 2) + 16) % 0x1_0000_0000
  {
    var q, r := count / 2, count % 2;
    assert FD_SIZE * count + 7 == 8 * q + (4 * r + 7);
    assert (8 * q + (4 * r + 7)) / 8 == q + r;
  }

  /** Padding gives every odd reservation one slot more than was asked for. */
  lemma SlotsPadded(maxFds: nat)
    requires FD_SIZE * maxFds + HEADER + 8 < U32
    ensures Slots(maxFds) == maxFds + maxFds % 2
  {
    var q, r := maxFds / 2, maxFds % 2;
    assert FD_SIZE * maxFds + 7 == 8 * q + (4 * r + 7);
    assert (8 * q + (4 * r + 7)) / 8 == q + r;
  }

  /** `SocketAncillary::add_fds` on an empty buffer of `bufferLen` bytes. */
  predicate AddFds(bufferLen: nat, count: nat) {
    FD_SIZE * count < U32 && CmsgSpace(FD_SIZE * count) <= bufferLen
  }

  /** `bufferLen` is a size the loop can stop at. */
  predicate StopsAt(bufferLen: nat, count: nat) {
    bufferLen > 0 && bufferLen % STEP == 0 && AddFds(bufferLen, count)
  }

  /** The loop has somewhere to stop exactly when the descriptors' byte length fits 32 bits. */
  lemma StopsIffLengthFits(count: nat)
    ensures (exists bufferLen: nat :: StopsAt(bufferLen, count)) <==> FD_SIZE * count < U32
  {
    if FD_SIZE * count < U32 {
      var top := U32;
      assert StopsAt(top, count);
    }
  }

  /** The buffer has room for a header and the padded descriptors. */
  predicate Holds(bufferLen: nat, count: nat) { Align(FD_SIZE * count) + HEADER <= bufferLen }

  /** A size the loop stops at has the room it is meant to have, unless the 32-bit cast wraps. */
  lemma HoldsIffNoWrap(bufferLen: nat, count: nat)
    requires StopsAt(bufferLen, count) && forall smaller :: 0 <= smaller < bufferLen ==> !StopsAt(smaller, count)
    ensures Holds(bufferLen, count) <==> Align(FD_SIZE * count) + HEADER < U32
  {
    var need := Align(FD_SIZE * count) + HEADER;
    assert need <= U32 + HEADER;
    if need >= U32 {
      assert CmsgSpace(FD_SIZE * count) == need - U32;
      assert StopsAt(STEP, count);
    }
  }

  /** Where it does wrap: a list of 2^30 - 1 descriptors is accepted by a buffer of 128 bytes. */
  lemma WrapIsTooSmall()
    ensures var count := 0x3FFF_FFFF; FD_SIZE * count < U32 && StopsAt(STEP, count) && !Holds(STEP, count)
  {
    assert Align(FD_SIZE * 0x3FFF_FFFF) == U32;
  }

  /** The least size to stop at, outright: the space needed rounded up to 128 bytes, or 128 bytes
      if the space wraps. */
  function BufferLen(count: nat): nat {
    var need := 4 * (count + count % 2) + 16;
    if need < 0x1_0000_0000 then (need + 127) / 128 * 128 else 128
  }

  lemma LeastStop(bufferLen: nat, count: nat)
    requires StopsAt(bufferLen, count) && forall smaller :: 0 <= smaller < bufferLen ==> !StopsAt(smaller, count)
    ensures bufferLen == BufferLen(count)
  {
    SpaceExact(count);
    if 4 * (count + count % 2) + 16 >= U32 { assert StopsAt(STEP, count); }
    assert StopsAt(BufferLen(count), count);
    RoundUp(4 * (count + count % 2) + 16, bufferLen);
  }

  lemma RoundUp(need: nat, size: nat)
    requires size % 128 == 0
    ensures var up := (need + 127) / 128 * 128; up % 128 == 0 && up >= need && (size >= need ==> size >= up)
  {
    var q := size / 128;
    assert size == 128 * q;
  }

  /** Grow by 128 bytes until `add_fds` accepts the descriptors: the least size the loop can stop
      at, which has room for them exactly if `CMSG_SPACE` does not wrap. A list whose byte length
      does not fit 32 bits is never accepted, and the loop would not end. */
  method GrowBuffer(count: nat) returns (bufferLen: nat)
    requires FD_SIZE * count < U32
    ensures StopsAt(bufferLen, count)
    ensures forall smaller :: 0 <= smaller < bufferLen ==> !StopsAt(smaller, count)
    ensures bufferLen == BufferLen(count)
    ensures Holds(bufferLen, count) <==> Align(FD_SIZE * count) + HEADER < U32
  {
    bufferLen := 0;
    while true
      invariant bufferLen % STEP == 0
      invariant bufferLen <= U32
      invariant forall smaller :: 0 <= smaller <= bufferLen ==> !StopsAt(smaller, count)
      decreases U32 - bufferLen
    {
      bufferLen := bufferLen + STEP;
      if AddFds(bufferLen, count) {
        break;
      }
    }
    LeastStop(bufferLen, count);
    HoldsIffNoWrap(bufferLen, count);
  }
}
