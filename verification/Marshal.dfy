/**
 From the fields of a packet to its memory image and back: what a program assigns to a zeroed
 structure, and what the program on the other end reads, whatever the byte order of the two hosts.
 */
module Marshal {
  import opened Codec
  import opened Protocol
  import opened Stream

  // ------------------------------------------------------------ integers

  function Power256(n: nat): nat {
    if n == 0 then 1 else 256 * Power256(n - 1)
  }

  lemma {:induction false} LittleValueOfBytes(v: nat, n: nat)
    requires v < Power256(n)
    ensures LittleValue(LittleBytes(v, n)) == v
    decreases n
  {
    if n > 0 {
      LittleValueOfBytes(v / 256, n - 1);
      assert LittleBytes(v, n)[1..] == LittleBytes(v / 256, n - 1);
    }
  }

  /** The bytes in which a host stores an unsigned integer. */
  function HostBytes(little: bool, v: nat, n: nat): (r: seq<byte>)
    ensures |r| == n
  {
    if little then LittleBytes(v, n) else Reversed(LittleBytes(v, n))
  }

  lemma HostValueOfBytes(little: bool, v: nat, n: nat)
    requires v < Power256(n)
    ensures HostValue(little, HostBytes(little, v, n)) == v
  {
    LittleValueOfBytes(v, n);
    NetworkIsReversedLittle(HostBytes(false, v, n));
    assert Reversed(Reversed(LittleBytes(v, n))) == LittleBytes(v, n);
  }

  function Unsigned(v: int, modulus: nat): nat
    requires 0 <= v + modulus
  {
    if v < 0 then v + modulus else v
  }

  predicate IsInt32(v: int) {
    -0x8000_0000 <= v < 0x8000_0000
  }

  predicate IsInt64(v: int) {
    -0x8000_0000_0000_0000 <= v < 0x8000_0000_0000_0000
  }

  function Int32Bytes(little: bool, v: int): (r: seq<byte>)
    requires IsInt32(v)
    ensures |r| == 4 && HostValue(little, r) == Unsigned(v, 0x1_0000_0000) && Signed(HostValue(little, r), 0x1_0000_0000) == v
  {
    assert Power256(4) == 0x1_0000_0000;
    HostValueOfBytes(little, Unsigned(v, 0x1_0000_0000), 4);
    HostBytes(little, Unsigned(v, 0x1_0000_0000), 4)
  }

  lemma Power256Of8()
    ensures Power256(8) == 0x1_0000_0000_0000_0000
  {
    assert Power256(4) == 0x1_0000_0000;
    assert Power256(6) == 0x1_0000_0000_0000;
  }

  function Int64Bytes(little: bool, v: int): (r: seq<byte>)
    requires IsInt64(v)
    ensures |r| == 8 && HostValue(little, r) == Unsigned(v, 0x1_0000_0000_0000_0000)
    ensures Signed(HostValue(little, r), 0x1_0000_0000_0000_0000) == v
  {
    Power256Of8();
    HostValueOfBytes(little, Unsigned(v, 0x1_0000_0000_0000_0000), 8);
    HostBytes(little, Unsigned(v, 0x1_0000_0000_0000_0000), 8)
  }

  // ------------------------------------------------------------ character arrays

  /** A C string: no NUL inside, one byte per character. */
  predicate IsText(s: string) {
    forall k :: 0 <= k < |s| ==> 0 < s[k] as int < 256
  }

  function Zeros(n: nat): (r: seq<byte>)
    ensures |r| == n
  {
    seq(n, i => 0)
  }

  /** What `strncpy` leaves in a zeroed array of `n` bytes. */
  function TextBytes(s: string, n: nat): (r: seq<byte>)
    requires IsText(s) && |s| < n
    ensures |r| == n && Text(r) == s
    decreases |s|
  {
    if s == [] then Zeros(n) else [s[0] as int] + TextBytes(s[1..], n - 1)
  }

  // ------------------------------------------------------------ what is assigned

  /** What fits the fields of the C structure. */
  predicate FitsPayload(q: Payload) {
    match q
    case Auth(action, status, username, password) =>
      IsInt32(action) && IsInt32(status) && IsText(username) && |username| < 32 && IsText(password) && |password| < 64
    case Dm(action, status, recipient, messageId, text) =>
      IsInt32(action) && IsInt32(status) && IsInt32(recipient) && IsInt64(messageId) && IsText(text) && |text| < 512
    case Server(action, server, target, status, memberCount, name) =>
      && IsInt32(action) && IsInt64(server) && IsInt64(target) && IsInt32(status) && IsInt32(memberCount)
      && IsText(name) && |name| < 32
    case Channel(action, server, status, channel, name, messageId, text) =>
      && IsInt32(action) && IsInt64(server) && IsInt32(status) && IsInt64(channel) && IsText(name) && |name| < 32
      && IsInt64(messageId) && IsText(text) && |text| < 512
    case Social(presence, action, status, target, name, profile) =>
      && IsInt32(presence) && IsInt32(action) && IsInt32(status) && IsInt64(target) && IsText(name) && |name| < 32
      && IsText(profile) && |profile| < 65
  }

  predicate FitsPacket(p: Packet) {
    IsInt64(p.sender) && IsInt32(p.index) && IsInt32(p.total) && IsInt32(p.frame) && FitsPayload(p.payload)
  }

  function TypeOf(q: Payload): (t: int)
    ensures PACKET_AUTH <= t <= PACKET_SOCIAL
  {
    match q
    case Auth(_, _, _, _) => PACKET_AUTH
    case Dm(_, _, _, _, _) => PACKET_DM
    case Server(_, _, _, _, _, _) => PACKET_SERVER
    case Channel(_, _, _, _, _, _, _) => PACKET_CHANNEL
    case Social(_, _, _, _, _, _) => PACKET_SOCIAL
  }

  /** An assignment to a member of the structure: where it is and what it gets. */
  datatype Member = Word(off: nat, v: int) | Long(off: nat, v: int) | Chars(off: nat, text: string, size: nat) {
    predicate Fits() {
      match this
      case Word(o, x) => IsInt32(x) && o + 4 <= PACKET_SIZE
      case Long(o, x) => IsInt64(x) && o + 8 <= PACKET_SIZE
      case Chars(o, s, n) => IsText(s) && |s| < n && o + n <= PACKET_SIZE
    }

    function Place(): Field {
      match this
      case Word(o, _) => Field(o, 4)
      case Long(o, _) => Field(o, 8)
      case Chars(o, _, n) => Field(o, n)
    }

    function Bytes(little: bool): (r: seq<byte>)
      requires Fits()
      ensures |r| == Place().width
    {
      match this
      case Word(_, x) => Int32Bytes(little, x)
      case Long(_, x) => Int64Bytes(little, x)
      case Chars(_, s, n) => TextBytes(s, n)
    }
  }

  function HeaderMembers(p: Packet, listId: int, timestamp: int): seq<Member> {
    [Word(0, TypeOf(p.payload)), Long(8, p.sender), Word(16, listId), Word(20, p.index), Word(24, p.total), Word(28, p.frame),
     Long(616, timestamp)]
  }

  function PayloadMembers(q: Payload): seq<Member> {
    match q
    case Auth(action, status, username, password) =>
      [Word(32, action), Word(36, status), Chars(40, username, 32), Chars(72, password, 64)]
    case Dm(action, status, recipient, messageId, text) =>
      [Word(32, action), Word(36, status), Word(40, recipient), Long(48, messageId), Chars(56, text, 512)]
    case Server(action, server, target, status, memberCount, name) =>
      [Word(32, action), Long(40, server), Long(48, target), Word(56, status), Word(60, memberCount), Chars(64, name, 32)]
    case Channel(action, server, status, channel, name, messageId, text) =>
      [Word(32, action), Long(40, server), Word(48, status), Long(56, channel), Chars(64, name, 32), Long(96, messageId), Chars(104, text, 512)]
    case Social(presence, action, status, target, name, profile) =>
      [Word(32, presence), Word(36, action), Word(40, status), Long(48, target), Chars(56, name, 32), Chars(88, profile, 65)]
  }

  function Members(p: Packet, listId: int, timestamp: int): seq<Member> {
    HeaderMembers(p, listId, timestamp) + PayloadMembers(p.payload)
  }

  ghost predicate AllFit(ms: seq<Member>) {
    forall k :: 0 <= k < |ms| ==> ms[k].Fits()
  }

  ghost predicate AllApart(ms: seq<Member>) {
    forall i, j :: 0 <= i < j < |ms| ==> ms[i].Place().Apart(ms[j].Place())
  }

  lemma MembersFit(p: Packet, listId: int, timestamp: int)
    requires FitsPacket(p) && IsInt32(listId) && IsInt64(timestamp)
    ensures AllFit(Members(p, listId, timestamp))
  {
    hide IsText;
    assert AllFit(HeaderMembers(p, listId, timestamp));
    assert AllFit(PayloadMembers(p.payload));
  }

  lemma MembersApart(p: Packet, listId: int, timestamp: int)
    ensures AllApart(Members(p, listId, timestamp))
  {
    var hs, ps := HeaderMembers(p, listId, timestamp), PayloadMembers(p.payload);
    assert forall i :: 0 <= i < |hs| ==> hs[i].Place().Apart(Field(32, 584));
    assert forall i :: 0 <= i < |ps| ==> 32 <= ps[i].Place().off && ps[i].Place().off + ps[i].Place().width <= 616;
    assert AllApart(hs) && AllApart(ps);
    hide HeaderMembers, PayloadMembers;
    ApartTogether(hs, ps);
  }

  lemma ApartTogether(hs: seq<Member>, ps: seq<Member>)
    requires AllApart(hs) && AllApart(ps)
    requires forall i, j :: 0 <= i < |hs| && 0 <= j < |ps| ==> hs[i].Place().Apart(ps[j].Place())
    ensures AllApart(hs + ps)
  {
    var ms := hs + ps;
    forall i, j | 0 <= i < j < |ms| ensures ms[i].Place().Apart(ms[j].Place()) {
      if |hs| <= i {
        assert ms[i] == ps[i - |hs|] && ms[j] == ps[j - |hs|];
      } else if j < |hs| {
        assert ms[i] == hs[i] && ms[j] == hs[j];
      }
    }
  }

  // ------------------------------------------------------------ the image

  function Put(image: seq<byte>, off: nat, bytes: seq<byte>): (r: seq<byte>)
    requires off + |bytes| <= |image|
    ensures |r| == |image|
  {
    image[..off] + bytes + image[off + |bytes|..]
  }

  /** The assignments, one after the other. */
  function PutAll(little: bool, image: seq<byte>, ms: seq<Member>): (r: seq<byte>)
    requires |image| == PACKET_SIZE && AllFit(ms)
    ensures |r| == PACKET_SIZE
  {
    if ms == [] then image
    else Put(PutAll(little, image, ms[..|ms| - 1]), ms[|ms| - 1].off, ms[|ms| - 1].Bytes(little))
  }

  /** The structure that a program of this byte order builds for a packet. */
  function ImageOf(little: bool, p: Packet, listId: int, timestamp: int): (r: seq<byte>)
    requires FitsPacket(p) && IsInt32(listId) && IsInt64(timestamp)
    ensures |r| == PACKET_SIZE
  {
    MembersFit(p, listId, timestamp);
    PutAll(little, Zeros(PACKET_SIZE), Members(p, listId, timestamp))
  }

  lemma PutReads(image: seq<byte>, off: nat, bytes: seq<byte>, lo: nat, hi: nat)
    requires off + |bytes| <= |image| && lo <= hi <= |image|
    ensures Put(image, off, bytes)[off..off + |bytes|] == bytes
    ensures hi <= off || off + |bytes| <= lo ==> Put(image, off, bytes)[lo..hi] == image[lo..hi]
  {}

  lemma PutAllLast(little: bool, image: seq<byte>, ms: seq<Member>)
    requires |image| == PACKET_SIZE && AllFit(ms) && ms != []
    ensures ms[|ms| - 1].Fits() && ms[|ms| - 1].off + ms[|ms| - 1].Place().width <= PACKET_SIZE && AllFit(ms[..|ms| - 1])
    ensures PutAll(little, image, ms) == Put(PutAll(little, image, ms[..|ms| - 1]), ms[|ms| - 1].off, ms[|ms| - 1].Bytes(little))
  {
    hide Put, Member.Bytes;
  }

  /** Every member that was assigned holds what it got. */
  lemma {:induction false} MembersHold(little: bool, image: seq<byte>, ms: seq<Member>, k: nat)
    requires |image| == PACKET_SIZE && AllFit(ms) && AllApart(ms) && k < |ms|
    ensures var f := ms[k].Place();
            f.off + f.width <= PACKET_SIZE && PutAll(little, image, ms)[f.off..f.off + f.width] == ms[k].Bytes(little)
    decreases |ms|
  {
    hide Put, PutAll, Member.Bytes;
    var front, last, f := ms[..|ms| - 1], ms[|ms| - 1], ms[k].Place();
    PutAllLast(little, image, ms);
    PutReads(PutAll(little, image, front), last.off, last.Bytes(little), f.off, f.off + f.width);
    if k < |front| {
      MembersHold(little, image, front, k);
      assert front[k] == ms[k] && ms[k].Place().Apart(ms[|ms| - 1].Place());
    }
  }

  lemma PutAgrees(a: seq<byte>, b: seq<byte>, off: nat, x: seq<byte>, y: seq<byte>, at: nat)
    requires |a| == |b| && |x| == |y| && off + |x| <= |a| && at < |a| && a[at] == b[at]
    requires off <= at < off + |x| ==> x == y
    ensures Put(a, off, x)[at] == Put(b, off, y)[at]
  {}

  /** Outside the integers the images of the two hosts agree byte for byte. */
  lemma {:induction false} OtherBytesAgree(image: seq<byte>, ms: seq<Member>, at: nat)
    requires |image| == PACKET_SIZE && AllFit(ms) && at < PACKET_SIZE
    requires forall k :: 0 <= k < |ms| && ms[k].Place().Covers(at) ==> ms[k].Chars?
    ensures PutAll(true, image, ms)[at] == PutAll(false, image, ms)[at]
    decreases |ms|
  {
    hide Put, TextBytes;
    if ms != [] {
      var front, last := ms[..|ms| - 1], ms[|ms| - 1];
      OtherBytesAgree(image, front, at);
      PutAgrees(PutAll(true, image, front), PutAll(false, image, front), last.off, last.Bytes(true), last.Bytes(false), at);
    }
  }

  // ------------------------------------------------------------ reading back

  ghost predicate HoldsMember(little: bool, image: seq<byte>, m: Member) {
    && |image| == PACKET_SIZE && m.Fits()
    && image[m.Place().off..m.Place().off + m.Place().width] == m.Bytes(little)
  }

  /** The image holds every member. */
  ghost predicate Holds(little: bool, image: seq<byte>, ms: seq<Member>)
    requires AllFit(ms)
  {
    && |image| == PACKET_SIZE
    && forall m :: m in ms ==> HoldsMember(little, image, m)
  }

  lemma AllHold(little: bool, image: seq<byte>, ms: seq<Member>)
    requires |image| == PACKET_SIZE && AllFit(ms) && AllApart(ms)
    ensures Holds(little, PutAll(little, image, ms), ms)
  {
    hide AllApart, PutAll, Member.Bytes;
    forall m | m in ms ensures HoldsMember(little, PutAll(little, image, ms), m) {
      var k :| 0 <= k < |ms| && ms[k] == m;
      MembersHold(little, image, ms, k);
    }
  }

  lemma ImageHolds(little: bool, p: Packet, listId: int, timestamp: int)
    requires FitsPacket(p) && IsInt32(listId) && IsInt64(timestamp)
    ensures AllFit(Members(p, listId, timestamp)) && Holds(little, ImageOf(little, p, listId, timestamp), Members(p, listId, timestamp))
  {
    MembersFit(p, listId, timestamp);
    MembersApart(p, listId, timestamp);
    hide Members, AllApart, AllFit, Holds, FitsPacket, PutAll;
    AllHold(little, Zeros(PACKET_SIZE), Members(p, listId, timestamp));
  }

  lemma HeldWord(little: bool, image: seq<byte>, ms: seq<Member>, off: nat, v: int)
    requires AllFit(ms) && Holds(little, image, ms) && Word(off, v) in ms
    ensures off + 4 <= PACKET_SIZE && Int32At(little, image, off) == v && HostValue(little, image[off..off + 4]) == Unsigned(v, 0x1_0000_0000)
  {
    assert Word(off, v).Fits();
    hide HostValue;
  }

  lemma HeldLong(little: bool, image: seq<byte>, ms: seq<Member>, off: nat, v: int)
    requires AllFit(ms) && Holds(little, image, ms) && Long(off, v) in ms
    ensures off + 8 <= PACKET_SIZE && Int64At(little, image, off) == v
    ensures HostValue(little, image[off..off + 8]) == Unsigned(v, 0x1_0000_0000_0000_0000)
  {
    assert Long(off, v).Fits();
    hide HostValue;
  }

  lemma HeldText(little: bool, image: seq<byte>, ms: seq<Member>, off: nat, s: string, n: nat)
    requires AllFit(ms) && Holds(little, image, ms) && Chars(off, s, n) in ms
    ensures off + n <= PACKET_SIZE && Text(image[off..off + n]) == s
  {
    assert Chars(off, s, n).Fits();
    hide Text;
  }

  /** What a host stores it reads back. */
  lemma ImageReadsBack(little: bool, p: Packet, listId: int, timestamp: int)
    requires FitsPacket(p) && IsInt32(listId) && IsInt64(timestamp)
    ensures PacketOf(little, ImageOf(little, p, listId, timestamp)) == p
    ensures HostType(little, ImageOf(little, p, listId, timestamp)) == TypeOf(p.payload)
  {
    hide ImageOf, HostValue, Text, Holds, AllFit;
    var image, hs, ms := ImageOf(little, p, listId, timestamp), HeaderMembers(p, listId, timestamp), Members(p, listId, timestamp);
    ImageHolds(little, p, listId, timestamp);
    assert hs[0] in ms && hs[1] in ms && hs[3] in ms && hs[4] in ms && hs[5] in ms;
    HeldWord(little, image, ms, 0, TypeOf(p.payload));
    HeldLong(little, image, ms, 8, p.sender);
    HeldWord(little, image, ms, 20, p.index);
    HeldWord(little, image, ms, 24, p.total);
    HeldWord(little, image, ms, 28, p.frame);
    PayloadReadsBack(little, image, ms, p.payload);
  }

  lemma PayloadReadsBack(little: bool, image: seq<byte>, ms: seq<Member>, q: Payload)
    requires AllFit(ms) && Holds(little, image, ms) && |image| == PACKET_SIZE && HostType(little, image) == TypeOf(q)
    requires forall m :: m in PayloadMembers(q) ==> m in ms
    ensures PayloadOf(little, image) == q
  {
    hide HostValue, Text, Holds, AllFit, HostType, Int32At, Int64At;
    match q
    case Auth(action, status, username, password) =>
      HeldWord(little, image, ms, 32, action);
      HeldWord(little, image, ms, 36, status);
      HeldText(little, image, ms, 40, username, 32);
      HeldText(little, image, ms, 72, password, 64);
    case Dm(action, status, recipient, messageId, text) =>
      HeldWord(little, image, ms, 32, action);
      HeldWord(little, image, ms, 36, status);
      HeldWord(little, image, ms, 40, recipient);
      HeldLong(little, image, ms, 48, messageId);
      HeldText(little, image, ms, 56, text, 512);
    case Server(action, server, target, status, memberCount, name) =>
      HeldWord(little, image, ms, 32, action);
      HeldLong(little, image, ms, 40, server);
      HeldLong(little, image, ms, 48, target);
      HeldWord(little, image, ms, 56, status);
      HeldWord(little, image, ms, 60, memberCount);
      HeldText(little, image, ms, 64, name, 32);
    case Channel(action, server, status, channel, name, messageId, text) =>
      HeldWord(little, image, ms, 32, action);
      HeldLong(little, image, ms, 40, server);
      HeldWord(little, image, ms, 48, status);
      HeldLong(little, image, ms, 56, channel);
      HeldText(little, image, ms, 64, name, 32);
      HeldLong(little, image, ms, 96, messageId);
      HeldText(little, image, ms, 104, text, 512);
    case Social(presence, action, status, target, name, profile) =>
      HeldWord(little, image, ms, 32, presence);
      HeldWord(little, image, ms, 36, action);
      HeldWord(little, image, ms, 40, status);
      HeldLong(little, image, ms, 48, target);
      HeldText(little, image, ms, 56, name, 32);
      HeldText(little, image, ms, 88, profile, 65);
  }

  // ------------------------------------------------------------ two hosts

  /** The integer members are the swapped fields of the type, and no others. */
  lemma IntegersAreFields(p: Packet, listId: int, timestamp: int)
    ensures forall m :: m in Members(p, listId, timestamp) && !m.Chars? ==> m.Place() in Fields(TypeOf(p.payload))
    ensures forall f :: f in Fields(TypeOf(p.payload)) ==> exists m :: m in Members(p, listId, timestamp) && !m.Chars? && m.Place() == f
  {
    var hs, ps, ms := HeaderMembers(p, listId, timestamp), PayloadMembers(p.payload), Members(p, listId, timestamp);
    forall m | m in ms && !m.Chars? ensures m.Place() in Fields(TypeOf(p.payload)) {
      if m in hs {
        assert m.Place() in HeaderFields();
      } else {
        assert m.Place() in PayloadFields(TypeOf(p.payload));
      }
    }
    forall f | f in HeaderFields() ensures exists m :: m in ms && !m.Chars? && m.Place() == f {
      var k :| 0 <= k < |HeaderFields()| && HeaderFields()[k] == f;
      assert hs[k] in ms && hs[k].Place() == f;
    }
    forall f | f in PayloadFields(TypeOf(p.payload)) ensures exists m :: m in ms && !m.Chars? && m.Place() == f {
      PayloadField(p.payload, f);
      var m :| m in ps && !m.Chars? && m.Place() == f;
      assert m in ms;
    }
  }

  lemma PayloadField(q: Payload, f: Field)
    requires f in PayloadFields(TypeOf(q))
    ensures exists m :: m in PayloadMembers(q) && !m.Chars? && m.Place() == f
  {
    var ps, fs := PayloadMembers(q), PayloadFields(TypeOf(q));
    var k :| 0 <= k < |fs| && fs[k] == f;
    var m := ps[if q.Channel? && k == 4 then 5 else k];
    assert m in ps;
    assert !m.Chars? && m.Place() == f;
  }

  /** The images that the two hosts build are images of the same packet. */
  lemma SameOnBothHosts(p: Packet, listId: int, timestamp: int)
    requires FitsPacket(p) && IsInt32(listId) && IsInt64(timestamp)
    ensures WellPlaced(Fields(TypeOf(p.payload)))
    ensures SamePacket(ImageOf(true, p, listId, timestamp), ImageOf(false, p, listId, timestamp), Fields(TypeOf(p.payload)))
  {
    var fs, ms := Fields(TypeOf(p.payload)), Members(p, listId, timestamp);
    var little, big := ImageOf(true, p, listId, timestamp), ImageOf(false, p, listId, timestamp);
    FieldsWellPlaced(TypeOf(p.payload));
    MembersFit(p, listId, timestamp);
    IntegersAreFields(p, listId, timestamp);
    hide Members, Fields, FitsPacket, Put, PutAll;
    forall at: nat | at < PACKET_SIZE && (forall i :: 0 <= i < |fs| ==> !fs[i].Covers(at)) ensures little[at] == big[at] {
      OtherBytesAgree(Zeros(PACKET_SIZE), ms, at);
    }
    forall i | 0 <= i < |fs| ensures SameField(little, big, fs[i]) {
      assert fs[i] in fs;
      var m :| m in ms && !m.Chars? && m.Place() == fs[i];
      FieldAgrees(p, listId, timestamp, m);
    }
  }

  lemma FieldAgrees(p: Packet, listId: int, timestamp: int, m: Member)
    requires FitsPacket(p) && IsInt32(listId) && IsInt64(timestamp) && m in Members(p, listId, timestamp) && !m.Chars?
    requires m.Place().off + m.Place().width <= PACKET_SIZE
    ensures SameField(ImageOf(true, p, listId, timestamp), ImageOf(false, p, listId, timestamp), m.Place())
  {
    hide ImageOf, LittleValue, NetworkValue, Holds, AllFit, Members;
    var ms := Members(p, listId, timestamp);
    ImageHolds(true, p, listId, timestamp);
    ImageHolds(false, p, listId, timestamp);
    if m.Word? {
      HeldWord(true, ImageOf(true, p, listId, timestamp), ms, m.off, m.v);
      HeldWord(false, ImageOf(false, p, listId, timestamp), ms, m.off, m.v);
    } else {
      HeldLong(true, ImageOf(true, p, listId, timestamp), ms, m.off, m.v);
      HeldLong(false, ImageOf(false, p, listId, timestamp), ms, m.off, m.v);
    }
  }

  /** Any packet that fits the structure arrives as it was sent, from any host to any host. */
  lemma SentIsReceived(from: bool, dest: bool, p: Packet, listId: int, timestamp: int)
    requires FitsPacket(p) && IsInt32(listId) && IsInt64(timestamp)
    ensures Decode(dest, Encode(from, ImageOf(from, p, listId, timestamp))) == Image(ImageOf(dest, p, listId, timestamp))
    ensures PacketOf(dest, ImageOf(dest, p, listId, timestamp)) == p
  {
    hide ImageOf, Decode, Encode, PacketOf, Fields;
    ImageReadsBack(true, p, listId, timestamp);
    ImageReadsBack(false, p, listId, timestamp);
    if from == dest {
      RoundTrip(from, ImageOf(from, p, listId, timestamp));
    } else {
      SameOnBothHosts(p, listId, timestamp);
      CrossEndianRoundTrip(ImageOf(true, p, listId, timestamp), ImageOf(false, p, listId, timestamp));
    }
  }

  // ------------------------------------------------------------ streams of packets

  /** A packet with the two fields that no program reads. */
  datatype Letter = Letter(packet: Packet, listId: int, timestamp: int) {
    predicate Fits() {
      FitsPacket(packet) && IsInt32(listId) && IsInt64(timestamp)
    }

    function Image(little: bool): (r: seq<byte>)
      requires Fits()
      ensures |r| == PACKET_SIZE
    {
      ImageOf(little, packet, listId, timestamp)
    }
  }

  function Images(little: bool, ls: seq<Letter>): (r: seq<seq<byte>>)
    requires forall l :: l in ls ==> l.Fits()
    ensures |r| == |ls| && forall i :: 0 <= i < |r| ==> |r[i]| == PACKET_SIZE && r[i] == ls[i].Image(little)
  {
    seq(|ls|, i requires 0 <= i < |ls| => ls[i].Image(little))
  }

  /** The wire does not tell the byte order of the host that wrote it. */
  lemma {:induction false} SameWire(ls: seq<Letter>)
    requires forall l :: l in ls ==> l.Fits()
    ensures WireOf(true, Images(true, ls)) == WireOf(false, Images(false, ls))
    decreases |ls|
  {
    hide ImageOf, Encode;
    if ls != [] {
      var l := ls[0];
      assert l in ls && l.Fits();
      assert Images(true, ls)[1..] == Images(true, ls[1..]) && Images(false, ls)[1..] == Images(false, ls[1..]);
      SameWire(ls[1..]);
      SameOnBothHosts(l.packet, l.listId, l.timestamp);
      ImageReadsBack(true, l.packet, l.listId, l.timestamp);
      EndiannessIndependence(l.Image(true), l.Image(false));
    }
  }

  lemma ImagesAreSendable(little: bool, ls: seq<Letter>)
    requires forall l :: l in ls ==> l.Fits()
    ensures Sendable(little, Images(little, ls))
  {
    hide ImageOf;
    forall x | x in Images(little, ls) ensures |x| == PACKET_SIZE && HostType(little, x) <= PACKET_SOCIAL {
      var i :| 0 <= i < |ls| && Images(little, ls)[i] == x;
      assert ls[i] in ls;
      ImageReadsBack(little, ls[i].packet, ls[i].listId, ls[i].timestamp);
    }
  }

  /**
   End to end in terms of packets: whatever the two hosts and however the bytes are cut up, the packets that
   the receiver reads are the packets that the sender sent, in order, as many as have arrived whole.
   */
  lemma PacketsArriveInOrder(from: bool, dest: bool, ls: seq<Letter>, k: Inbound, buffer: seq<byte>)
    requires (forall l :: l in ls ==> l.Fits()) && |buffer| == PACKET_SIZE
    ensures var s := ResumableSession(dest, k, buffer, 0);
            k.input <= WireOf(from, Images(from, ls)) ==>
              && |s.packets| <= |ls| && !s.ending.AtBadPacket?
              && |s.socket.input| <= |k.input|
              && PACKET_SIZE * |s.packets| <= |Taken(k, s.socket)| < PACKET_SIZE * |s.packets| + PACKET_SIZE
              && forall i :: 0 <= i < |s.packets| ==> |s.packets[i]| == PACKET_SIZE && PacketOf(dest, s.packets[i]) == ls[i].packet
  {
    hide ImageOf, Encode, Decode, PacketOf, ResumableSession, WireOf;
    SameWire(ls);
    ImagesAreSendable(dest, ls);
    EndToEnd(dest, Images(dest, ls), k, buffer);
    var s := ResumableSession(dest, k, buffer, 0);
    forall i | k.input <= WireOf(from, Images(from, ls)) && 0 <= i < |s.packets| ensures i < |ls| && |s.packets[i]| == PACKET_SIZE && PacketOf(dest, s.packets[i]) == ls[i].packet {
      assert s.packets[i] == Images(dest, ls)[i] && ls[i] in ls;
      ImageReadsBack(dest, ls[i].packet, ls[i].listId, ls[i].timestamp);
    }
  }
}
