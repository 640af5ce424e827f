/**
 The byte codec of `shared/packet_helper.c`.

 A packet is the 624-byte memory image of the C structure `TizcordPacket` on the LP64
 layout.  Sending swaps the integer fields of the image in place, receiving swaps them
 back.  A host is little- or big-endian; the flag `little` says which.
 */
module Codec {

  type byte = x: int | 0 <= x < 256

  const PACKET_SIZE: nat := 624

  const PACKET_AUTH := 0
  const PACKET_DM := 1
  const PACKET_SERVER := 2
  const PACKET_CHANNEL := 3
  const PACKET_SOCIAL := 4

  // ------------------------------------------------------------ field layout

  /** An integer field: where it starts in the image and how many bytes it has. */
  datatype Field = Field(off: nat, width: nat) {
    predicate Covers(p: int) {
      off <= p < off + width
    }

    predicate Apart(other: Field) {
      off + width <= other.off || other.off + other.width <= off
    }

    /** The position that trades places with `p` when the field is reversed. */
    function Opposite(p: int): int {
      2 * off + width - 1 - p
    }
  }

  /** type, sender_id, list_id, list_index, list_total, list_frame, timestamp. */
  function HeaderFields(): seq<Field> {
    [Field(0, 4), Field(8, 8), Field(16, 4), Field(20, 4), Field(24, 4), Field(28, 4), Field(616, 8)]
  }

  /** The integer fields of the union arm that `packetType` selects. */
  function PayloadFields(packetType: int): seq<Field> {
    if packetType == PACKET_DM then [Field(32, 4), Field(36, 4), Field(40, 4), Field(48, 8)]
    else if packetType == PACKET_SERVER then [Field(32, 4), Field(40, 8), Field(48, 8), Field(56, 4), Field(60, 4)]
    else if packetType == PACKET_CHANNEL then [Field(32, 4), Field(40, 8), Field(48, 4), Field(56, 8), Field(96, 8)]
    else if packetType == PACKET_SOCIAL then [Field(32, 4), Field(36, 4), Field(40, 4), Field(48, 8)]
    else [Field(32, 4), Field(36, 4)]  // PACKET_AUTH and the system arm
  }

  function Fields(packetType: int): seq<Field> {
    HeaderFields() + PayloadFields(packetType)
  }

  /** Every field ends before byte `n`. */
  ghost predicate Fits(fs: seq<Field>, n: nat) {
    forall i :: 0 <= i < |fs| ==> fs[i].off + fs[i].width <= n
  }

  ghost predicate WellPlaced(fs: seq<Field>) {
    && Fits(fs, PACKET_SIZE)
    && (forall i, j :: 0 <= i < j < |fs| ==> fs[i].Apart(fs[j]))
  }

  /** The character arrays of the union arm; no integer field may touch them. */
  function TextFields(packetType: int): seq<Field> {
    if packetType == PACKET_AUTH then [Field(40, 32), Field(72, 64)]
    else if packetType == PACKET_DM then [Field(56, 512)]
    else if packetType == PACKET_SERVER then [Field(64, 32)]
    else if packetType == PACKET_CHANNEL then [Field(64, 32), Field(104, 512)]
    else if packetType == PACKET_SOCIAL then [Field(56, 32), Field(88, 65)]
    else [Field(40, 256)]
  }

  /** The swapped ranges of every union arm are pairwise disjoint and lie inside the packet. */
  lemma FieldsWellPlaced(packetType: int)
    ensures WellPlaced(Fields(packetType))
  {
    var fs, hs, ps := Fields(packetType), HeaderFields(), PayloadFields(packetType);
    assert WellPlaced(hs) && WellPlaced(ps);
    HeaderMissesUnion(packetType);
    forall i, j | 0 <= i < j < |fs| ensures fs[i].Apart(fs[j]) {
      if |hs| <= i {
        assert fs[i] == ps[i - |hs|] && fs[j] == ps[j - |hs|];
      } else if j < |hs| {
        assert fs[i] == hs[i] && fs[j] == hs[j];
      }
    }
  }

  lemma HeaderMissesUnion(packetType: int)
    ensures forall h, p :: h in HeaderFields() && p in PayloadFields(packetType) ==> h.Apart(p)
  {}

  lemma TextsApart(packetType: int)
    ensures forall f, t :: f in Fields(packetType) && t in TextFields(packetType) ==> f.Apart(t)
  {}

  // ------------------------------------------------------------ integers in memory

  function Reversed(s: seq<byte>): (r: seq<byte>)
    ensures |r| == |s|
    ensures forall k :: 0 <= k < |s| ==> r[k] == s[|s| - 1 - k]
  {
    seq(|s|, k requires 0 <= k < |s| => s[|s| - 1 - k])
  }

  /** The unsigned integer that a little-endian host reads from `s`. */
  function LittleValue(s: seq<byte>): nat {
    if s == [] then 0 else s[0] + 256 * LittleValue(s[1..])
  }

  /** The unsigned integer whose network-order (most significant byte first) form is `s`. */
  function NetworkValue(s: seq<byte>): nat {
    if s == [] then 0 else 256 * NetworkValue(s[..|s| - 1]) + s[|s| - 1]
  }

  function HostValue(little: bool, s: seq<byte>): nat {
    if little then LittleValue(s) else NetworkValue(s)
  }

  /** The `n` bytes that a little-endian host stores for the unsigned integer `v`. */
  function LittleBytes(v: nat, n: nat): (r: seq<byte>)
    ensures |r| == n
  {
    if n == 0 then [] else [v % 256] + LittleBytes(v / 256, n - 1)
  }

  lemma {:induction false} LittleBytesOfValue(s: seq<byte>)
    ensures LittleBytes(LittleValue(s), |s|) == s
  {
    if s != [] {
      LittleBytesOfValue(s[1..]);
      assert LittleValue(s) / 256 == LittleValue(s[1..]);
    }
  }

  lemma {:induction false} LittleValueInjective(s: seq<byte>, t: seq<byte>)
    requires |s| == |t| && LittleValue(s) == LittleValue(t)
    ensures s == t
  {
    LittleBytesOfValue(s);
    LittleBytesOfValue(t);
  }

  /** Reading a byte string in network order is reading its reversal in little-endian order. */
  lemma {:induction false} NetworkIsReversedLittle(s: seq<byte>)
    ensures NetworkValue(s) == LittleValue(Reversed(s))
  {
    if s != [] {
      var r := Reversed(s);
      var front := s[..|s| - 1];
      NetworkIsReversedLittle(front);
      assert r[1..] == Reversed(front);
    }
  }

  const TWO_32 := 0x1_0000_0000

  /** `htonl` on a little-endian host: the value of the four stored bytes read in network order. */
  function Htonl(v: nat): nat {
    NetworkValue(LittleBytes(v, 4))
  }

  /** `network64` as the source computes it on a little-endian host: two `htonl` halves, exchanged. */
  function Network64(v: nat): nat {
    Htonl(v % TWO_32) * TWO_32 + Htonl(v / TWO_32)
  }

  /** `SWAP32` on a stored little-endian word is a reversal of its four bytes. */
  lemma HtonlReverses(s: seq<byte>)
    requires |s| == 4
    ensures LittleBytes(Htonl(LittleValue(s)), 4) == Reversed(s)
  {
    LittleBytesOfValue(s);
    NetworkIsReversedLittle(s);
    LittleBytesOfValue(Reversed(s));
  }

  lemma LittleTail(s: seq<byte>, k: nat)
    requires k < |s|
    ensures LittleValue(s[k..]) == s[k] + 0x100 * LittleValue(s[k + 1..])
  {
    assert s[k..][1..] == s[k + 1..];
  }

  /** The low word of a stored integer, spelled out. */
  lemma LowWord(s: seq<byte>)
    requires 4 <= |s|
    ensures LittleValue(s) == s[0] + 0x100 * s[1] + 0x1_0000 * s[2] + 0x100_0000 * s[3] + TWO_32 * LittleValue(s[4..])
  {
    hide LittleValue;
    calc {
      LittleValue(s);
    ==  { assert s[0..] == s; LittleTail(s, 0); }
      s[0] + 0x100 * LittleValue(s[1..]);
    ==  { LittleTail(s, 1); }
      s[0] + 0x100 * (s[1] + 0x100 * LittleValue(s[2..]));
    ==  { LittleTail(s, 2); }
      s[0] + 0x100 * (s[1] + 0x100 * (s[2] + 0x100 * LittleValue(s[3..])));
    ==  { LittleTail(s, 3); }
      s[0] + 0x100 * (s[1] + 0x100 * (s[2] + 0x100 * (s[3] + 0x100 * LittleValue(s[4..]))));
    }
  }

  lemma HalvesOfValue(lo: seq<byte>, hi: seq<byte>)
    requires |lo| == 4
    ensures LittleValue(lo) < TWO_32
    ensures LittleValue(lo + hi) == LittleValue(lo) + TWO_32 * LittleValue(hi)
    ensures LittleValue(lo + hi) % TWO_32 == LittleValue(lo)
    ensures LittleValue(lo + hi) / TWO_32 == LittleValue(hi)
  {
    LowWord(lo);
    LowWord(lo + hi);
    assert lo[4..] == [] && (lo + hi)[4..] == hi;
  }

  lemma HtonlOfValue(s: seq<byte>)
    requires |s| == 4
    ensures Htonl(LittleValue(s)) == LittleValue(Reversed(s))
  {
    LittleBytesOfValue(s);
    NetworkIsReversedLittle(s);
  }

  lemma ReversedConcat(s: seq<byte>, t: seq<byte>)
    ensures Reversed(s + t) == Reversed(t) + Reversed(s)
  {}

  /** `SWAP64` on a stored little-endian word is a true reversal of its eight bytes. */
  lemma Network64Reverses(s: seq<byte>)
    requires |s| == 8
    ensures LittleBytes(Network64(LittleValue(s)), 8) == Reversed(s)
  {
    var v := Network64(LittleValue(s));
    assert v == LittleValue(Reversed(s)) by {
      var lo, hi := s[..4], s[4..];
      assert s == lo + hi;
      HalvesOfValue(lo, hi);
      HtonlOfValue(lo);
      HtonlOfValue(hi);
      HalvesOfValue(Reversed(hi), Reversed(lo));
      ReversedConcat(lo, hi);
    }
    LittleBytesOfValue(Reversed(s));
  }

  // ------------------------------------------------------------ swapping an image

  function SwapField(s: seq<byte>, f: Field): (r: seq<byte>)
    requires f.off + f.width <= |s|
    ensures |r| == |s|
  {
    s[..f.off] + Reversed(s[f.off..f.off + f.width]) + s[f.off + f.width..]
  }

  function SwapFields(s: seq<byte>, fs: seq<Field>): (r: seq<byte>)
    requires Fits(fs, |s|)
    ensures |r| == |s|
    decreases |fs|
  {
    if fs == [] then s else SwapFields(SwapField(s, fs[0]), fs[1..])
  }

  /** What `swap_packet` leaves in memory: nothing changes on a big-endian host. */
  function Swapped(little: bool, s: seq<byte>, packetType: int): (r: seq<byte>)
    requires |s| == PACKET_SIZE
    ensures |r| == PACKET_SIZE
  {
    FieldsWellPlaced(packetType);
    if little then SwapFields(s, Fields(packetType)) else s
  }

  /** Reference description of a swap: the position whose byte arrives at `p`. */
  function Mirror(fs: seq<Field>, p: int): int {
    if fs == [] then p
    else if fs[0].Covers(p) then fs[0].Opposite(p)
    else Mirror(fs[1..], p)
  }

  /** `Mirror` stays inside the one field that covers a position and fixes every other position. */
  lemma {:induction false} MirrorStays(fs: seq<Field>, p: int)
    requires WellPlaced(fs)
    ensures forall i :: 0 <= i < |fs| && fs[i].Covers(p) ==> Mirror(fs, p) == fs[i].Opposite(p)
    ensures (forall i :: 0 <= i < |fs| ==> !fs[i].Covers(p)) ==> Mirror(fs, p) == p
  {
    if fs != [] && !fs[0].Covers(p) {
      MirrorStays(fs[1..], p);
    }
  }

  lemma MirrorInvolutive(fs: seq<Field>, p: int)
    requires WellPlaced(fs)
    ensures Mirror(fs, Mirror(fs, p)) == p
  {
    MirrorStays(fs, p);
    MirrorStays(fs, Mirror(fs, p));
  }

  lemma SwapFieldAt(s: seq<byte>, f: Field, p: nat)
    requires f.off + f.width <= |s| && p < |s|
    ensures SwapField(s, f)[p] == if f.Covers(p) then s[f.Opposite(p)] else s[p]
  {}

  lemma {:induction false} SwapFieldsAt(s: seq<byte>, fs: seq<Field>, p: nat)
    requires |s| == PACKET_SIZE && WellPlaced(fs) && p < PACKET_SIZE
    ensures 0 <= Mirror(fs, p) < PACKET_SIZE
    ensures SwapFields(s, fs)[p] == s[Mirror(fs, p)]
    decreases |fs|
  {
    MirrorStays(fs, p);
    if fs != [] {
      var f, rest := fs[0], fs[1..];
      assert WellPlaced(rest);
      SwapFieldsAt(SwapField(s, f), rest, p);
      MirrorStays(rest, p);
      SwapFieldAt(s, f, Mirror(rest, p));
    }
  }

  /** Every byte of a swapped image, described without swapping. */
  lemma SwappedAt(s: seq<byte>, packetType: int, p: nat)
    requires |s| == PACKET_SIZE && p < PACKET_SIZE
    ensures 0 <= Mirror(Fields(packetType), p) < PACKET_SIZE
    ensures Swapped(true, s, packetType)[p] == s[Mirror(Fields(packetType), p)]
  {
    FieldsWellPlaced(packetType);
    SwapFieldsAt(s, Fields(packetType), p);
  }

  /** Padding and character arrays travel unchanged: only bytes of integer fields ever move. */
  lemma OthersUntouched(little: bool, s: seq<byte>, packetType: int, p: nat)
    requires |s| == PACKET_SIZE && p < PACKET_SIZE
    requires (exists t :: t in TextFields(packetType) && t.Covers(p)) || !exists f :: f in Fields(packetType) && f.Covers(p)
    ensures Swapped(little, s, packetType)[p] == s[p]
  {
    if little {
      var fs := Fields(packetType);
      TextsApart(packetType);
      forall i | 0 <= i < |fs| ensures !fs[i].Covers(p) {
        assert fs[i] in fs;
      }
      FieldsWellPlaced(packetType);
      SwappedAt(s, packetType, p);
      MirrorStays(fs, p);
    }
  }

  /** Swapping twice restores every byte. */
  lemma SwappedTwice(little: bool, s: seq<byte>, packetType: int)
    requires |s| == PACKET_SIZE
    ensures Swapped(little, Swapped(little, s, packetType), packetType) == s
  {
    if little {
      var once := Swapped(true, s, packetType);
      var twice := Swapped(true, once, packetType);
      forall p: nat | p < PACKET_SIZE ensures twice[p] == s[p] {
        FieldsWellPlaced(packetType);
        SwappedAt(once, packetType, p);
        SwappedAt(s, packetType, Mirror(Fields(packetType), p));
        MirrorInvolutive(Fields(packetType), p);
      }
    }
  }

  lemma SwapFieldsByte(s: seq<byte>, fs: seq<Field>, i: nat, p: nat)
    requires |s| == PACKET_SIZE && WellPlaced(fs) && i < |fs| && fs[i].Covers(p)
    ensures SwapFields(s, fs)[p] == s[fs[i].Opposite(p)]
  {
    SwapFieldsAt(s, fs, p);
    MirrorStays(fs, p);
  }

  lemma ReversedSlice(s: seq<byte>, t: seq<byte>, f: Field)
    requires |s| == |t| && f.off + f.width <= |s|
    requires forall p: nat :: f.Covers(p) ==> t[p] == s[f.Opposite(p)]
    ensures t[f.off..f.off + f.width] == Reversed(s[f.off..f.off + f.width])
  {}

  lemma SwapFieldsField(s: seq<byte>, t: seq<byte>, fs: seq<Field>, i: nat)
    requires |s| == PACKET_SIZE && WellPlaced(fs) && i < |fs| && t == SwapFields(s, fs)
    ensures t[fs[i].off..fs[i].off + fs[i].width] == Reversed(s[fs[i].off..fs[i].off + fs[i].width])
  {
    var f := fs[i];
    forall p: nat | f.Covers(p) ensures t[p] == s[f.Opposite(p)] {
      SwapFieldsByte(s, fs, i, p);
    }
    ReversedSlice(s, t, f);
  }

  /** On the wire an integer field is the field's value, most significant byte first. */
  lemma SwappedField(little: bool, s: seq<byte>, packetType: int, i: nat)
    requires |s| == PACKET_SIZE && i < |Fields(packetType)|
    ensures var f := Fields(packetType)[i];
            && f.off + f.width <= PACKET_SIZE
            && NetworkValue(Swapped(little, s, packetType)[f.off..f.off + f.width]) == HostValue(little, s[f.off..f.off + f.width])
  {
    FieldsWellPlaced(packetType);
    ghost var fs := Fields(packetType);
    if little {
      var part := s[fs[i].off..fs[i].off + fs[i].width];
      SwapFieldsField(s, SwapFields(s, fs), fs, i);
      NetworkIsReversedLittle(Reversed(part));
      assert Reversed(Reversed(part)) == part;
    }
  }

  // ------------------------------------------------------------ encode and decode

  function HostType(little: bool, image: seq<byte>): nat
    requires |image| == PACKET_SIZE
  {
    HostValue(little, image[0..4])
  }

  /** The bytes `packet_send` puts on the wire for a host image. */
  function Encode(little: bool, image: seq<byte>): (wire: seq<byte>)
    requires |image| == PACKET_SIZE
    ensures |wire| == PACKET_SIZE
  {
    Swapped(little, image, HostType(little, image))
  }

  datatype Decoded = BadType | Image(bytes: seq<byte>)

  /** What a receiver makes of 624 wire bytes: `ntohl` of the type word, the range check, the swap. */
  function Decode(little: bool, wire: seq<byte>): (d: Decoded)
    requires |wire| == PACKET_SIZE
    ensures d.Image? ==> |d.bytes| == PACKET_SIZE
  {
    var packetType := NetworkValue(wire[0..4]);
    if packetType > PACKET_SOCIAL then BadType else Image(Swapped(little, wire, packetType))
  }

  /** Receiving what the same kind of host sent restores every byte exactly when the type is AUTH..SOCIAL. */
  lemma RoundTrip(little: bool, image: seq<byte>)
    requires |image| == PACKET_SIZE
    ensures Decode(little, Encode(little, image)) == if HostType(little, image) <= PACKET_SOCIAL then Image(image) else BadType
  {
    var t := HostType(little, image);
    assert Fields(t)[0] == Field(0, 4);
    SwappedField(little, image, t, 0);
    SwappedTwice(little, image, t);
  }

  /** The images of one packet on a little- and on a big-endian host: equal field values, equal other bytes. */
  ghost predicate SamePacket(little: seq<byte>, big: seq<byte>, fs: seq<Field>)
    requires WellPlaced(fs)
  {
    && |little| == PACKET_SIZE && |big| == PACKET_SIZE
    && (forall i :: 0 <= i < |fs| ==> SameField(little, big, fs[i]))
    && (forall p :: 0 <= p < PACKET_SIZE && (forall i :: 0 <= i < |fs| ==> !fs[i].Covers(p)) ==> little[p] == big[p])
  }

  ghost predicate SameField(little: seq<byte>, big: seq<byte>, f: Field)
    requires |little| == |big| && f.off + f.width <= |little|
  {
    LittleValue(little[f.off..f.off + f.width]) == NetworkValue(big[f.off..f.off + f.width])
  }

  lemma SameFieldBytes(little: seq<byte>, big: seq<byte>, f: Field, p: nat)
    requires |little| == |big| && f.off + f.width <= |little| && SameField(little, big, f) && f.Covers(p)
    ensures big[p] == little[f.Opposite(p)]
  {
    var l, b := little[f.off..f.off + f.width], big[f.off..f.off + f.width];
    NetworkIsReversedLittle(b);
    LittleValueInjective(l, Reversed(b));
    assert b[p - f.off] == l[f.width - 1 - (p - f.off)];
  }

  lemma SamePacketSwaps(little: seq<byte>, big: seq<byte>, fs: seq<Field>)
    requires WellPlaced(fs) && SamePacket(little, big, fs)
    ensures SwapFields(little, fs) == big
  {
    var wire := SwapFields(little, fs);
    forall p: nat | p < PACKET_SIZE ensures wire[p] == big[p] {
      if i: nat :| i < |fs| && fs[i].Covers(p) {
        SwapFieldsByte(little, fs, i, p);
        SameFieldBytes(little, big, fs[i], p);
      } else {
        SwapFieldsAt(little, fs, p);
        MirrorStays(fs, p);
      }
    }
  }

  /** Two hosts of different byte order emit the same wire bytes for the same packet. */
  lemma EndiannessIndependence(little: seq<byte>, big: seq<byte>)
    requires |little| == PACKET_SIZE
    requires WellPlaced(Fields(HostType(true, little))) && SamePacket(little, big, Fields(HostType(true, little)))
    ensures HostType(false, big) == HostType(true, little)
    ensures Encode(true, little) == Encode(false, big)
  {
    var fs := Fields(HostType(true, little));
    assert fs[0] == Field(0, 4) && SameField(little, big, fs[0]);
    SamePacketSwaps(little, big, fs);
  }

  /** So a packet crosses between hosts of different byte order unharmed, in both directions. */
  lemma CrossEndianRoundTrip(little: seq<byte>, big: seq<byte>)
    requires |little| == PACKET_SIZE && HostType(true, little) <= PACKET_SOCIAL
    requires WellPlaced(Fields(HostType(true, little))) && SamePacket(little, big, Fields(HostType(true, little)))
    ensures Decode(false, Encode(true, little)) == Image(big)
    ensures Decode(true, Encode(false, big)) == Image(little)
  {
    EndiannessIndependence(little, big);
    RoundTrip(true, little);
    RoundTrip(false, big);
  }

  // ------------------------------------------------------------ swap_packet in place

  /** Stores `bytes` over the field `f` of `packet`. */
  method StoreField(packet: array<byte>, f: Field, bytes: seq<byte>)
    requires f.off + f.width <= packet.Length && |bytes| == f.width
    modifies packet
    ensures packet[..] == old(packet[..])[..f.off] + bytes + old(packet[..])[f.off + f.width..]
  {
    for k := 0 to f.width
      invariant forall q :: 0 <= q < packet.Length ==>
        packet[q] == if f.off <= q < f.off + k then bytes[q - f.off] else old(packet[q])
    {
      packet[f.off + k] := bytes[k];
    }
  }

  /** What memory will hold once the fields from number `i` on have been swapped too. */
  ghost function AfterRest(little: bool, s: seq<byte>, fs: seq<Field>, i: nat): seq<byte>
    requires |s| == PACKET_SIZE && Fits(fs, PACKET_SIZE) && i <= |fs|
  {
    if little then SwapFields(s, fs[i..]) else s
  }

  /** `SWAP32`, swap number `i` of `fs`: load the word, apply `htonl`, store it. */
  method Swap32(packet: array<byte>, off: nat, little: bool, ghost fs: seq<Field>, ghost i: nat)
    requires packet.Length == PACKET_SIZE && Fits(fs, PACKET_SIZE) && i < |fs| && fs[i] == Field(off, 4)
    modifies packet
    ensures AfterRest(little, packet[..], fs, i + 1) == AfterRest(little, old(packet[..]), fs, i)
  {
    if little {
      var word := packet[off..off + 4];
      HtonlReverses(word);
      StoreField(packet, Field(off, 4), LittleBytes(Htonl(LittleValue(word)), 4));
      assert packet[..] == SwapField(old(packet[..]), fs[i]);
      assert fs[i..][1..] == fs[i + 1..];
    }
  }

  /** `SWAP64`, swap number `i` of `fs`: load the word, apply `network64`, store it. */
  method Swap64(packet: array<byte>, off: nat, little: bool, ghost fs: seq<Field>, ghost i: nat)
    requires packet.Length == PACKET_SIZE && Fits(fs, PACKET_SIZE) && i < |fs| && fs[i] == Field(off, 8)
    modifies packet
    ensures AfterRest(little, packet[..], fs, i + 1) == AfterRest(little, old(packet[..]), fs, i)
  {
    if little {
      var word := packet[off..off + 8];
      Network64Reverses(word);
      StoreField(packet, Field(off, 8), LittleBytes(Network64(LittleValue(word)), 8));
      assert packet[..] == SwapField(old(packet[..]), fs[i]);
      assert fs[i..][1..] == fs[i + 1..];
    }
  }

  method SwapHeader(packet: array<byte>, little: bool, ghost fs: seq<Field>)
    requires packet.Length == PACKET_SIZE && Fits(fs, PACKET_SIZE)
    requires 7 <= |fs| && fs[..7] == HeaderFields()
    modifies packet
    ensures AfterRest(little, packet[..], fs, 7) == AfterRest(little, old(packet[..]), fs, 0)
  {
    assert forall k :: 0 <= k < 7 ==> fs[k] == HeaderFields()[k];
    Swap32(packet, 0, little, fs, 0);     // type
    Swap64(packet, 8, little, fs, 1);     // sender_id
    Swap32(packet, 16, little, fs, 2);    // list_id
    Swap32(packet, 20, little, fs, 3);    // list_index
    SwapHeaderEnd(packet, little, fs);
  }

  method SwapHeaderEnd(packet: array<byte>, little: bool, ghost fs: seq<Field>)
    requires packet.Length == PACKET_SIZE && Fits(fs, PACKET_SIZE)
    requires 7 <= |fs| && fs[..7] == HeaderFields()
    modifies packet
    ensures AfterRest(little, packet[..], fs, 7) == AfterRest(little, old(packet[..]), fs, 4)
  {
    assert forall k :: 0 <= k < 7 ==> fs[k] == HeaderFields()[k];
    Swap32(packet, 24, little, fs, 4);    // list_total
    Swap32(packet, 28, little, fs, 5);    // list_frame
    Swap64(packet, 616, little, fs, 6);   // timestamp
  }

  method SwapDmArm(packet: array<byte>, little: bool, ghost fs: seq<Field>)
    requires packet.Length == PACKET_SIZE && Fits(fs, PACKET_SIZE)
    requires 7 <= |fs| && fs[7..] == PayloadFields(PACKET_DM)
    modifies packet
    ensures AfterRest(little, packet[..], fs, |fs|) == AfterRest(little, old(packet[..]), fs, 7)
  {
    assert forall k :: 7 <= k < |fs| ==> fs[k] == fs[7..][k - 7];
    Swap32(packet, 32, little, fs, 7);     // action
    Swap32(packet, 36, little, fs, 8);     // status_code
    Swap32(packet, 40, little, fs, 9);     // recipient_id
    Swap64(packet, 48, little, fs, 10);    // message_id
  }

  method SwapServerArm(packet: array<byte>, little: bool, ghost fs: seq<Field>)
    requires packet.Length == PACKET_SIZE && Fits(fs, PACKET_SIZE)
    requires 7 <= |fs| && fs[7..] == PayloadFields(PACKET_SERVER)
    modifies packet
    ensures AfterRest(little, packet[..], fs, |fs|) == AfterRest(little, old(packet[..]), fs, 7)
  {
    assert forall k :: 7 <= k < |fs| ==> fs[k] == fs[7..][k - 7];
    Swap32(packet, 32, little, fs, 7);     // action
    Swap64(packet, 40, little, fs, 8);     // server_id
    Swap64(packet, 48, little, fs, 9);     // target_user_id
    Swap32(packet, 56, little, fs, 10);    // status_code
    Swap32(packet, 60, little, fs, 11);    // member_count
  }

  method SwapChannelArm(packet: array<byte>, little: bool, ghost fs: seq<Field>)
    requires packet.Length == PACKET_SIZE && Fits(fs, PACKET_SIZE)
    requires 7 <= |fs| && fs[7..] == PayloadFields(PACKET_CHANNEL)
    modifies packet
    ensures AfterRest(little, packet[..], fs, |fs|) == AfterRest(little, old(packet[..]), fs, 7)
  {
    assert forall k :: 7 <= k < |fs| ==> fs[k] == fs[7..][k - 7];
    Swap32(packet, 32, little, fs, 7);     // action
    Swap64(packet, 40, little, fs, 8);     // server_id
    Swap32(packet, 48, little, fs, 9);     // status_code
    Swap64(packet, 56, little, fs, 10);    // channel_id
    Swap64(packet, 96, little, fs, 11);    // message_id
  }

  method SwapSocialArm(packet: array<byte>, little: bool, ghost fs: seq<Field>)
    requires packet.Length == PACKET_SIZE && Fits(fs, PACKET_SIZE)
    requires 7 <= |fs| && fs[7..] == PayloadFields(PACKET_SOCIAL)
    modifies packet
    ensures AfterRest(little, packet[..], fs, |fs|) == AfterRest(little, old(packet[..]), fs, 7)
  {
    assert forall k :: 7 <= k < |fs| ==> fs[k] == fs[7..][k - 7];
    Swap32(packet, 32, little, fs, 7);     // status
    Swap32(packet, 36, little, fs, 8);     // action
    Swap32(packet, 40, little, fs, 9);     // status_code
    Swap64(packet, 48, little, fs, 10);    // target_user_id
  }

  method SwapSystemArm(packet: array<byte>, little: bool, ghost fs: seq<Field>)
    requires packet.Length == PACKET_SIZE && Fits(fs, PACKET_SIZE)
    requires 7 <= |fs| && fs[7..] == PayloadFields(PACKET_AUTH)
    modifies packet
    ensures AfterRest(little, packet[..], fs, |fs|) == AfterRest(little, old(packet[..]), fs, 7)
  {
    assert forall k :: 7 <= k < |fs| ==> fs[k] == fs[7..][k - 7];
    Swap32(packet, 32, little, fs, 7);     // action
    Swap32(packet, 36, little, fs, 8);     // status_code
  }

  /** `swap_packet`: the header first, then the union arm that `packetType` selects. */
  method SwapPacket(packet: array<byte>, packetType: int, little: bool)
    requires packet.Length == PACKET_SIZE
    modifies packet
    ensures packet[..] == Swapped(little, old(packet[..]), packetType)
  {
    ghost var fs := Fields(packetType);
    FieldsWellPlaced(packetType);
    assert fs[0..] == fs && fs[|fs|..] == [] && fs[..7] == HeaderFields() && fs[7..] == PayloadFields(packetType);
    SwapHeader(packet, little, fs);
    if packetType == PACKET_DM {
      SwapDmArm(packet, little, fs);
    } else if packetType == PACKET_SERVER {
      SwapServerArm(packet, little, fs);
    } else if packetType == PACKET_CHANNEL {
      SwapChannelArm(packet, little, fs);
    } else if packetType == PACKET_SOCIAL {
      SwapSocialArm(packet, little, fs);
    } else {
      SwapSystemArm(packet, little, fs);
    }
  }
}
