/**
 The stream layer of `shared/packet_helper.c`: sending one packet over a socket that
 accepts any number of bytes at a time, and two readers that rebuild packets from a byte
 stream that arrives in arbitrary pieces.

 A socket is its data plus a finite schedule of what the kernel will answer, call by call.
 */
module Stream {
  import opened Codec

  // ------------------------------------------------------------ sockets

  /** What one `recv` call will do.  `Data(n)` hands over up to `n` bytes, at least one. */
  datatype RecvOutcome = Data(n: nat) | Interrupted | NotReady | Closed | Failed

  /** The receiving side of a socket: bytes on their way and the outcomes still to come. */
  datatype Inbound = Inbound(input: seq<byte>, schedule: seq<RecvOutcome>)

  datatype Received = Bytes(bytes: seq<byte>) | Eintr | Eagain | Eof | Error

  /** The number of bytes a `Data(n)` outcome hands over into `room` free bytes. */
  function Share(n: nat, room: nat, available: nat): (k: nat)
    requires 0 < room && 0 < available
    ensures 0 < k <= room && k <= available
  {
    var wanted := if n == 0 then 1 else n;
    if wanted <= room && wanted <= available then wanted else if room <= available then room else available
  }

  /** One `recv(fd, ..., room, ...)`.  A socket whose schedule is over, or without data, is not ready. */
  function Recv(k: Inbound, room: nat): (r: (Received, Inbound))
    requires 0 < room
    ensures r.0.Bytes? ==> 0 < |r.0.bytes| <= room && k.input == r.0.bytes + r.1.input
    ensures !r.0.Bytes? ==> r.1.input == k.input
    ensures k.schedule != [] ==> r.1.schedule == k.schedule[1..]
    ensures k.schedule == [] ==> r == (Eagain, k)
  {
    if k.schedule == [] then (Eagain, k)
    else
      var rest := k.(schedule := k.schedule[1..]);
      match k.schedule[0]
      case Interrupted => (Eintr, rest)
      case NotReady => (Eagain, rest)
      case Closed => (Eof, rest)
      case Failed => (Error, rest)
      case Data(n) =>
        if k.input == [] then (Eagain, rest)
        else
          var size := Share(n, room, |k.input|);
          (Bytes(k.input[..size]), rest.(input := k.input[size..]))
  }

  // ------------------------------------------------------------ the resumable reader

  /** What a call of a reader reports: a packet, nothing yet, or the end of the connection. */
  datatype Status = Ready(image: seq<byte>) | Pending | Rejected | Lost

  datatype Reading = Reading(status: Status, buffer: seq<byte>, offset: nat, socket: Inbound)

  /** Copies `bytes` into `buffer` at `offset`. */
  function Fill(buffer: seq<byte>, offset: nat, bytes: seq<byte>): (r: seq<byte>)
    requires offset + |bytes| <= |buffer|
    ensures |r| == |buffer|
    ensures r[..offset + |bytes|] == buffer[..offset] + bytes
  {
    buffer[..offset] + bytes + buffer[offset + |bytes|..]
  }

  /** One call of `packet_receive_partial`. */
  function PartialRead(little: bool, k: Inbound, buffer: seq<byte>, offset: nat): (r: Reading)
    requires |buffer| == PACKET_SIZE && offset <= PACKET_SIZE
    ensures |r.buffer| == PACKET_SIZE && r.offset <= PACKET_SIZE
    ensures r.status.Ready? ==> |r.status.image| == PACKET_SIZE
    ensures |r.socket.schedule| <= |k.schedule|
    ensures offset < PACKET_SIZE && k.schedule != [] ==> |r.socket.schedule| < |k.schedule|
    decreases |k.schedule|
  {
    if offset < PACKET_SIZE then
      var (got, k') := Recv(k, PACKET_SIZE - offset);
      match got
      case Eintr => PartialRead(little, k', buffer, offset)
      case Eagain => Reading(Pending, buffer, offset, k')
      case Eof => Reading(Lost, buffer, offset, k')
      case Error => Reading(Lost, buffer, offset, k')
      case Bytes(bytes) => PartialRead(little, k', Fill(buffer, offset, bytes), offset + |bytes|)
    else
      match Decode(little, buffer)
      case BadType => Reading(Rejected, buffer, offset, k)
      case Image(image) => Reading(Ready(image), buffer, 0, k)
  }

  /** The bytes a call took from the socket. */
  function Taken(k: Inbound, k': Inbound): seq<byte>
    requires |k'.input| <= |k.input|
  {
    k.input[..|k.input| - |k'.input|]
  }

  /**
   Byte accounting of one call: what it took from the socket, appended to what was buffered, is
   either one whole packet, which it reports, or exactly what is buffered afterwards.
   */
  ghost predicate Accounted(little: bool, k: Inbound, buffer: seq<byte>, offset: nat, r: Reading)
    requires |buffer| == PACKET_SIZE && offset <= PACKET_SIZE && |r.buffer| == PACKET_SIZE && r.offset <= PACKET_SIZE
  {
    && |r.socket.input| <= |k.input|
    && k.input == Taken(k, r.socket) + r.socket.input
    && var bytes := buffer[..offset] + Taken(k, r.socket);
      match r.status
      case Ready(image) => r.offset == 0 && |bytes| == PACKET_SIZE && Decode(little, bytes) == Image(image)
      case Rejected => r.offset == PACKET_SIZE && bytes == r.buffer && Decode(little, bytes) == BadType
      case Pending => r.offset < PACKET_SIZE && bytes == r.buffer[..r.offset]
      case Lost => r.offset < PACKET_SIZE && bytes == r.buffer[..r.offset]
  }

  lemma TakenThroughStep(k: Inbound, k1: Inbound, k2: Inbound, bytes: seq<byte>)
    requires k.input == bytes + k1.input && |k2.input| <= |k1.input|
    ensures Taken(k, k2) == bytes + Taken(k1, k2)
  {}

  lemma AccountedThroughStep(little: bool, k: Inbound, buffer: seq<byte>, offset: nat,
                             k1: Inbound, buffer1: seq<byte>, bytes: seq<byte>, r: Reading)
    requires |buffer| == PACKET_SIZE && offset + |bytes| <= PACKET_SIZE
    requires |buffer1| == PACKET_SIZE && |r.buffer| == PACKET_SIZE && r.offset <= PACKET_SIZE
    requires k.input == bytes + k1.input && buffer1[..offset + |bytes|] == buffer[..offset] + bytes
    requires Accounted(little, k1, buffer1, offset + |bytes|, r)
    ensures Accounted(little, k, buffer, offset, r)
  {
    hide Codec.Decode;
    TakenThroughStep(k, k1, r.socket, bytes);
    assert buffer1[..offset + |bytes|] + Taken(k1, r.socket) == buffer[..offset] + Taken(k, r.socket);
    assert k.input == Taken(k, r.socket) + r.socket.input;
  }

  lemma AccountedAfterRetry(little: bool, k: Inbound, buffer: seq<byte>, offset: nat, k1: Inbound, r: Reading)
    requires |buffer| == PACKET_SIZE && offset <= PACKET_SIZE && |r.buffer| == PACKET_SIZE && r.offset <= PACKET_SIZE
    requires k1.input == k.input && Accounted(little, k1, buffer, offset, r)
    ensures Accounted(little, k, buffer, offset, r)
  {}

  lemma AccountedAtOnce(little: bool, k: Inbound, buffer: seq<byte>, offset: nat, r: Reading)
    requires |buffer| == PACKET_SIZE && offset <= PACKET_SIZE && r.buffer == buffer && r.socket.input == k.input
    requires offset < PACKET_SIZE ==> (r.status.Pending? || r.status.Lost?) && r.offset == offset
    requires offset == PACKET_SIZE ==>
      match Decode(little, buffer)
      case BadType => r.status.Rejected? && r.offset == offset
      case Image(image) => r.status == Ready(image) && r.offset == 0
    ensures Accounted(little, k, buffer, offset, r)
  {
    assert Taken(k, r.socket) == [];
    assert buffer[..offset] + [] == buffer[..offset];
    assert buffer[..PACKET_SIZE] == buffer;
  }

  lemma {:induction false} PartialReadAccounts(little: bool, k: Inbound, buffer: seq<byte>, offset: nat)
    requires |buffer| == PACKET_SIZE && offset <= PACKET_SIZE
    ensures Accounted(little, k, buffer, offset, PartialRead(little, k, buffer, offset))
    decreases |k.schedule|
  {
    hide Codec.Decode;
    var r := PartialRead(little, k, buffer, offset);
    if offset < PACKET_SIZE {
      var (got, k') := Recv(k, PACKET_SIZE - offset);
      if got.Eintr? {
        PartialReadAccounts(little, k', buffer, offset);
        AccountedAfterRetry(little, k, buffer, offset, k', r);
      } else if got.Bytes? {
        var buffer' := Fill(buffer, offset, got.bytes);
        PartialReadAccounts(little, k', buffer', offset + |got.bytes|);
        AccountedThroughStep(little, k, buffer, offset, k', buffer', got.bytes, r);
      } else {
        AccountedAtOnce(little, k, buffer, offset, r);
      }
    } else {
      AccountedAtOnce(little, k, buffer, offset, r);
    }
  }

  // ------------------------------------------------------------ sessions of a reader

  /** How a session ended: waiting for more, at a packet of unknown type, or with the connection. */
  datatype Ending = Waiting | AtBadPacket | AtLoss

  datatype Session = Session(packets: seq<seq<byte>>, ending: Ending, offset: nat, socket: Inbound)

  /** `packet_receive_partial` called again and again until an error or until the schedule is over. */
  function ResumableSession(little: bool, k: Inbound, buffer: seq<byte>, offset: nat): (s: Session)
    requires |buffer| == PACKET_SIZE && offset < PACKET_SIZE
    decreases |k.schedule|
  {
    if k.schedule == [] then Session([], Waiting, offset, k)
    else
      PartialReadAccounts(little, k, buffer, offset);
      var r := PartialRead(little, k, buffer, offset);
      match r.status
      case Rejected => Session([], AtBadPacket, r.offset, r.socket)
      case Lost => Session([], AtLoss, r.offset, r.socket)
      case Pending => ResumableSession(little, r.socket, r.buffer, r.offset)
      case Ready(image) =>
        var s := ResumableSession(little, r.socket, r.buffer, r.offset);
        s.(packets := [image] + s.packets)
  }

  /** Reference reading of a byte string: whole packets, block by block, up to one of unknown type. */
  function Packets(little: bool, bytes: seq<byte>): seq<seq<byte>>
    decreases |bytes|
  {
    if |bytes| < PACKET_SIZE then []
    else match Decode(little, bytes[..PACKET_SIZE])
         case BadType => []
         case Image(image) => [image] + Packets(little, bytes[PACKET_SIZE..])
  }

  lemma PacketsCons(little: bool, block: seq<byte>, rest: seq<byte>)
    requires |block| == PACKET_SIZE
    ensures Packets(little, block + rest) == match Decode(little, block)
                                             case BadType => []
                                             case Image(image) => [image] + Packets(little, rest)
  {}

  /** A session account: what the session had and took is its packets, plus `offset` bytes of the next one. */
  ghost predicate Delivers(little: bool, k: Inbound, had: seq<byte>, s: Session) {
    && |s.socket.input| <= |k.input|
    && k.input == Taken(k, s.socket) + s.socket.input
    && Packets(little, had + Taken(k, s.socket)) == s.packets
    && |had| + |Taken(k, s.socket)| == PACKET_SIZE * |s.packets| + s.offset
    && s.offset <= PACKET_SIZE
    && (s.offset == PACKET_SIZE <==> s.ending.AtBadPacket?)
  }

  lemma DeliversThroughCall(little: bool, k: Inbound, had: seq<byte>, k1: Inbound, had1: seq<byte>, s: Session)
    requires |k1.input| <= |k.input| && k.input == Taken(k, k1) + k1.input
    requires had + Taken(k, k1) == had1 && Delivers(little, k1, had1, s)
    ensures Delivers(little, k, had, s)
  {
    hide Codec.Decode;
    TakenThroughStep(k, k1, s.socket, Taken(k, k1));
    assert had + Taken(k, s.socket) == had1 + Taken(k1, s.socket);
    assert k.input == Taken(k, s.socket) + s.socket.input;
  }

  lemma DeliversOnePacket(little: bool, k: Inbound, block: seq<byte>, image: seq<byte>, s: Session)
    requires |block| == PACKET_SIZE && Decode(little, block) == Image(image) && Delivers(little, k, [], s)
    ensures Delivers(little, k, block, s.(packets := [image] + s.packets))
  {
    hide Codec.Decode;
    assert [] + Taken(k, s.socket) == Taken(k, s.socket);
    PacketsCons(little, block, Taken(k, s.socket));
  }

  lemma DeliversNothing(little: bool, k: Inbound, had: seq<byte>, ending: Ending)
    requires |had| <= PACKET_SIZE
    requires if |had| == PACKET_SIZE then ending.AtBadPacket? && Decode(little, had) == BadType else !ending.AtBadPacket?
    ensures Delivers(little, k, had, Session([], ending, |had|, k))
  {}

  /**
   No schedule loses, repeats or reorders anything: a session delivers exactly the packets of the
   bytes it had and took, and the number of those bytes is 624 per packet plus the stored offset.
   */
  lemma {:induction false} SessionDeliversPackets(little: bool, k: Inbound, buffer: seq<byte>, offset: nat)
    requires |buffer| == PACKET_SIZE && offset < PACKET_SIZE
    ensures Delivers(little, k, buffer[..offset], ResumableSession(little, k, buffer, offset))
    decreases |k.schedule|
  {
    hide Codec.Decode;
    var had := buffer[..offset];
    if k.schedule == [] {
      DeliversNothing(little, k, had, Waiting);
    } else {
      PartialReadAccounts(little, k, buffer, offset);
      var r := PartialRead(little, k, buffer, offset);
      var bytes := had + Taken(k, r.socket);
      match r.status
      case Rejected =>
        DeliversNothing(little, r.socket, bytes, AtBadPacket);
        DeliversThroughCall(little, k, had, r.socket, bytes, Session([], AtBadPacket, r.offset, r.socket));
      case Lost =>
        DeliversNothing(little, r.socket, bytes, AtLoss);
        DeliversThroughCall(little, k, had, r.socket, bytes, Session([], AtLoss, r.offset, r.socket));
      case Pending =>
        SessionDeliversPackets(little, r.socket, r.buffer, r.offset);
        DeliversThroughCall(little, k, had, r.socket, bytes, ResumableSession(little, r.socket, r.buffer, r.offset));
      case Ready(image) =>
        SessionDeliversPackets(little, r.socket, r.buffer, 0);
        var s := ResumableSession(little, r.socket, r.buffer, 0);
        assert r.buffer[..0] == [];
        DeliversOnePacket(little, r.socket, bytes, image, s);
        DeliversThroughCall(little, k, had, r.socket, bytes, s.(packets := [image] + s.packets));
    }
  }

  /** Packets of the five types the protocol has. */
  ghost predicate Sendable(little: bool, sent: seq<seq<byte>>) {
    forall p :: p in sent ==> |p| == PACKET_SIZE && HostType(little, p) <= PACKET_SOCIAL
  }

  /** The bytes a peer of the same byte order puts on the wire for a list of packets. */
  function WireOf(little: bool, sent: seq<seq<byte>>): seq<byte>
    requires forall p :: p in sent ==> |p| == PACKET_SIZE
  {
    if sent == [] then [] else Encode(little, sent[0]) + WireOf(little, sent[1..])
  }

  /** What is read from any prefix of the wire is a prefix of what was sent, and every whole packet of it is read. */
  lemma {:induction false} PrefixOfWire(little: bool, sent: seq<seq<byte>>, bytes: seq<byte>)
    requires Sendable(little, sent)
    requires bytes <= WireOf(little, sent)
    ensures Packets(little, bytes) <= sent
    ensures PACKET_SIZE * |Packets(little, bytes)| <= |bytes|
    ensures |bytes| < PACKET_SIZE * |Packets(little, bytes)| + PACKET_SIZE
    decreases |sent|
  {
    hide Codec.Decode, Codec.Encode;
    if sent != [] && PACKET_SIZE <= |bytes| {
      var rest := PrefixSplit(Encode(little, sent[0]), WireOf(little, sent[1..]), bytes);
      RoundTrip(little, sent[0]);
      PacketsCons(little, Encode(little, sent[0]), rest);
      PrefixOfWire(little, sent[1..], rest);
    }
  }

  lemma PrefixSplit(block: seq<byte>, wire: seq<byte>, bytes: seq<byte>) returns (rest: seq<byte>)
    requires |block| <= |bytes| && bytes <= block + wire
    ensures bytes == block + rest && rest <= wire
  {
    rest := bytes[|block|..];
    assert bytes == (block + wire)[..|bytes|];
  }

  /** End to end: under any fragmentation of what the peer sent, the packets delivered are a prefix of its packets. */
  lemma EndToEnd(little: bool, sent: seq<seq<byte>>, k: Inbound, buffer: seq<byte>)
    requires Sendable(little, sent) && |buffer| == PACKET_SIZE
    ensures var s := ResumableSession(little, k, buffer, 0);
            k.input <= WireOf(little, sent) ==>
              && |s.socket.input| <= |k.input|
              && s.packets <= sent
              && !s.ending.AtBadPacket?
              && PACKET_SIZE * |s.packets| <= |Taken(k, s.socket)| < PACKET_SIZE * |s.packets| + PACKET_SIZE
  {
    hide Codec.Decode, Codec.Encode;
    if k.input <= WireOf(little, sent) {
      SessionDeliversPackets(little, k, buffer, 0);
      var s := ResumableSession(little, k, buffer, 0);
      var taken := Taken(k, s.socket);
      assert buffer[..0] + taken == taken;
      PrefixOfWire(little, sent, taken);
    }
  }

  // ------------------------------------------------------------ the blocking reader

  datatype BlockingStatus = Whole(image: seq<byte>) | EndOfStream | ProtocolError | ReadError | Blocked

  /** `packet_receive`, after `got` has been read.  It waits for bytes; a `recv` that gives up waiting ends it. */
  function BlockingRead(little: bool, k: Inbound, got: seq<byte>): (r: (BlockingStatus, Inbound))
    requires |got| <= PACKET_SIZE
    ensures |r.1.schedule| <= |k.schedule|
    ensures |got| < PACKET_SIZE && !r.0.Blocked? ==> |r.1.schedule| < |k.schedule|
    decreases |k.schedule|
  {
    if |got| < PACKET_SIZE then
      if k.schedule == [] then (Blocked, k)
      else
        var (chunk, k') := Recv(k, PACKET_SIZE - |got|);
        match chunk
        case Eintr => BlockingRead(little, k', got)
        case Eagain => if k.schedule[0].NotReady? then (ReadError, k') else BlockingRead(little, k', got)
        case Eof => (if got == [] then EndOfStream else ReadError, k')
        case Error => (ReadError, k')
        case Bytes(bytes) => BlockingRead(little, k', got + bytes)
    else
      match Decode(little, got)
      case BadType => (ProtocolError, k)
      case Image(image) => (Whole(image), k)
  }

  /** `packet_receive` called again and again; the first call continues after `got`. */
  function BlockingSession(little: bool, k: Inbound, got: seq<byte>): (s: (seq<seq<byte>>, Ending))
    requires |got| < PACKET_SIZE
    decreases |k.schedule|
  {
    var (status, k') := BlockingRead(little, k, got);
    match status
    case Blocked => ([], Waiting)
    case EndOfStream => ([], AtLoss)
    case ReadError => ([], AtLoss)
    case ProtocolError => ([], AtBadPacket)
    case Whole(image) =>
      var s := BlockingSession(little, k', []);
      ([image] + s.0, s.1)
  }

  /** The outcomes without those that say there is nothing yet: a call that may wait sees the others only. */
  function Waited(schedule: seq<RecvOutcome>): seq<RecvOutcome> {
    if schedule == [] then []
    else (if schedule[0].NotReady? then [] else [schedule[0]]) + Waited(schedule[1..])
  }

  /** The same traffic on a socket whose calls wait. */
  function AsBlocking(k: Inbound): Inbound {
    k.(schedule := Waited(k.schedule))
  }

  /** One outcome of the two: skipped by the one that waits, or the same for both. */
  lemma AsBlockingStep(k: Inbound, room: nat)
    requires 0 < room && k.schedule != []
    ensures var (chunk, k') := Recv(k, room);
            if k.schedule[0].NotReady? then chunk.Eagain? && AsBlocking(k') == AsBlocking(k)
            else AsBlocking(k).schedule != [] && AsBlocking(k).schedule[0] == k.schedule[0]
                 && Recv(AsBlocking(k), room) == (chunk, AsBlocking(k'))
  {
    assert Waited(k.schedule) == (if k.schedule[0].NotReady? then [] else [k.schedule[0]]) + Waited(k.schedule[1..]);
    if !k.schedule[0].NotReady? {
      assert Waited(k.schedule)[1..] == Waited(k.schedule[1..]);
    }
    hide Waited;
  }

  lemma {:induction false} BlockingSkipsWait(little: bool, k: Inbound, got: seq<byte>)
    requires |got| < PACKET_SIZE && k.schedule != []
    ensures var r := Recv(k, PACKET_SIZE - |got|);
            && (r.0.Eintr? || (r.0.Eagain? && !k.schedule[0].NotReady?) ==> BlockingSession(little, k, got) == BlockingSession(little, r.1, got))
            && (r.0.Bytes? && |got| + |r.0.bytes| < PACKET_SIZE ==>
                  BlockingSession(little, k, got) == BlockingSession(little, r.1, got + r.0.bytes))
  {}

  /** When a call completes a packet, both readers report it and go on from an empty buffer. */
  lemma ReadersAgreeOnWhole(little: bool, k: Inbound, buffer: seq<byte>, offset: nat)
    requires |buffer| == PACKET_SIZE && offset < PACKET_SIZE && k.schedule != []
    requires Recv(k, PACKET_SIZE - offset).0.Bytes? && offset + |Recv(k, PACKET_SIZE - offset).0.bytes| == PACKET_SIZE
    ensures var (chunk, k') := Recv(k, PACKET_SIZE - offset);
            var whole := Fill(buffer, offset, chunk.bytes);
            match Decode(little, whole)
            case BadType =>
              && ResumableSession(little, k, buffer, offset) == Session([], AtBadPacket, PACKET_SIZE, k')
              && BlockingSession(little, AsBlocking(k), buffer[..offset]) == ([], AtBadPacket)
            case Image(image) =>
              var s, b := ResumableSession(little, k', whole, 0), BlockingSession(little, AsBlocking(k'), []);
              && ResumableSession(little, k, buffer, offset) == s.(packets := [image] + s.packets)
              && BlockingSession(little, AsBlocking(k), buffer[..offset]) == ([image] + b.0, b.1)
  {
    hide Codec.Decode, AsBlocking;
    AsBlockingStep(k, PACKET_SIZE - offset);
    var (chunk, k') := Recv(k, PACKET_SIZE - offset);
    var whole := Fill(buffer, offset, chunk.bytes);
    assert whole[..PACKET_SIZE] == whole;
    assert PartialRead(little, k, buffer, offset) == PartialRead(little, k', whole, PACKET_SIZE);
    assert BlockingRead(little, AsBlocking(k), buffer[..offset]) == BlockingRead(little, AsBlocking(k'), whole);
  }

  /** Both readers deliver the same packets and stop for the same reason, each on its kind of socket. */
  ghost predicate Agree(little: bool, k: Inbound, buffer: seq<byte>, offset: nat)
    requires |buffer| == PACKET_SIZE && offset < PACKET_SIZE
  {
    var s := ResumableSession(little, k, buffer, offset);
    BlockingSession(little, AsBlocking(k), buffer[..offset]) == (s.packets, s.ending)
  }

  lemma AgreeThroughPart(little: bool, k: Inbound, buffer: seq<byte>, offset: nat)
    requires |buffer| == PACKET_SIZE && offset < PACKET_SIZE && k.schedule != []
    requires Recv(k, PACKET_SIZE - offset).0.Bytes? && offset + |Recv(k, PACKET_SIZE - offset).0.bytes| < PACKET_SIZE
    ensures var (chunk, k') := Recv(k, PACKET_SIZE - offset);
            Agree(little, k', Fill(buffer, offset, chunk.bytes), offset + |chunk.bytes|) ==> Agree(little, k, buffer, offset)
  {
    hide Codec.Decode, Recv, ResumableSession, BlockingSession, AsBlocking;
    AsBlockingStep(k, PACKET_SIZE - offset);
    BlockingSkipsWait(little, AsBlocking(k), buffer[..offset]);
    ResumableSkips(little, k, buffer, offset);
  }

  lemma AgreeThroughWhole(little: bool, k: Inbound, buffer: seq<byte>, offset: nat)
    requires |buffer| == PACKET_SIZE && offset < PACKET_SIZE && k.schedule != []
    requires Recv(k, PACKET_SIZE - offset).0.Bytes? && offset + |Recv(k, PACKET_SIZE - offset).0.bytes| == PACKET_SIZE
    ensures var (chunk, k') := Recv(k, PACKET_SIZE - offset);
            Agree(little, k', Fill(buffer, offset, chunk.bytes), 0) ==> Agree(little, k, buffer, offset)
  {
    hide Codec.Decode, Recv, ResumableSession, BlockingSession, AsBlocking;
    var (chunk, k') := Recv(k, PACKET_SIZE - offset);
    ReadersAgreeOnWhole(little, k, buffer, offset);
    assert Fill(buffer, offset, chunk.bytes)[..0] == [];
  }

  lemma AgreeAfterWait(little: bool, k: Inbound, buffer: seq<byte>, offset: nat)
    requires |buffer| == PACKET_SIZE && offset < PACKET_SIZE && k.schedule != []
    requires Recv(k, PACKET_SIZE - offset).0.Eintr? || Recv(k, PACKET_SIZE - offset).0.Eagain?
    ensures Agree(little, Recv(k, PACKET_SIZE - offset).1, buffer, offset) ==> Agree(little, k, buffer, offset)
  {
    hide Codec.Decode, AsBlocking;
    AsBlockingStep(k, PACKET_SIZE - offset);
    if !k.schedule[0].NotReady? {
      BlockingSkipsWait(little, AsBlocking(k), buffer[..offset]);
    }
    if Recv(k, PACKET_SIZE - offset).0.Eintr? {
      ResumableSkips(little, k, buffer, offset);
    }
  }

  lemma AgreeAtTheEnd(little: bool, k: Inbound, buffer: seq<byte>, offset: nat)
    requires |buffer| == PACKET_SIZE && offset < PACKET_SIZE
    ensures k.schedule == [] || Recv(k, PACKET_SIZE - offset).0.Eof? || Recv(k, PACKET_SIZE - offset).0.Error?
            ==> Agree(little, k, buffer, offset)
  {
    hide Codec.Decode;
    if k.schedule != [] {
      AsBlockingStep(k, PACKET_SIZE - offset);
    }
  }

  /** The blocking and the resumable reader deliver the same packets and stop for the same reason, whatever the schedule. */
  lemma {:induction false} ReadersAgree(little: bool, k: Inbound, buffer: seq<byte>, offset: nat)
    requires |buffer| == PACKET_SIZE && offset < PACKET_SIZE
    ensures var s := ResumableSession(little, k, buffer, offset);
            BlockingSession(little, AsBlocking(k), buffer[..offset]) == (s.packets, s.ending)
    decreases |k.schedule|
  {
    hide Codec.Decode, ResumableSession, BlockingSession, Recv;
    if k.schedule == [] {
      AgreeAtTheEnd(little, k, buffer, offset);
    } else {
      var (chunk, k') := Recv(k, PACKET_SIZE - offset);
      match chunk
      case Eintr =>
        ReadersAgree(little, k', buffer, offset);
        AgreeAfterWait(little, k, buffer, offset);
      case Eagain =>
        ReadersAgree(little, k', buffer, offset);
        AgreeAfterWait(little, k, buffer, offset);
      case Eof => AgreeAtTheEnd(little, k, buffer, offset);
      case Error => AgreeAtTheEnd(little, k, buffer, offset);
      case Bytes(bytes) =>
        if offset + |bytes| < PACKET_SIZE {
          ReadersAgree(little, k', Fill(buffer, offset, bytes), offset + |bytes|);
          AgreeThroughPart(little, k, buffer, offset);
        } else {
          ReadersAgree(little, k', Fill(buffer, offset, bytes), 0);
          AgreeThroughWhole(little, k, buffer, offset);
        }
    }
  }

  /** An interrupted call and a call that read part of a packet go on as if called afresh. */
  lemma ResumableSkips(little: bool, k: Inbound, buffer: seq<byte>, offset: nat)
    requires |buffer| == PACKET_SIZE && offset < PACKET_SIZE && k.schedule != []
    ensures var r := Recv(k, PACKET_SIZE - offset);
            && (r.0.Eintr? ==>
                  ResumableSession(little, k, buffer, offset) == ResumableSession(little, r.1, buffer, offset))
            && (r.0.Bytes? && offset + |r.0.bytes| < PACKET_SIZE ==>
                  ResumableSession(little, k, buffer, offset)
                  == ResumableSession(little, r.1, Fill(buffer, offset, r.0.bytes), offset + |r.0.bytes|))
  {
    hide Codec.Decode;
    var (got, k') := Recv(k, PACKET_SIZE - offset);
    if got.Eintr? && k'.schedule == [] {
      ResumableOver(little, k', buffer, offset);
    } else if got.Bytes? && offset + |got.bytes| < PACKET_SIZE && k'.schedule == [] {
      ResumableOver(little, k', Fill(buffer, offset, got.bytes), offset + |got.bytes|);
    }
  }

  lemma ResumableOver(little: bool, k: Inbound, buffer: seq<byte>, offset: nat)
    requires |buffer| == PACKET_SIZE && offset < PACKET_SIZE && k.schedule == []
    ensures PartialRead(little, k, buffer, offset) == Reading(Pending, buffer, offset, k)
    ensures ResumableSession(little, k, buffer, offset) == Session([], Waiting, offset, k)
  {}

  // ------------------------------------------------------------ the readers and the writer as loops

  lemma PartialReadStep(little: bool, k: Inbound, buffer: seq<byte>, offset: nat)
    requires |buffer| == PACKET_SIZE && offset < PACKET_SIZE
    ensures var (got, k') := Recv(k, PACKET_SIZE - offset);
            PartialRead(little, k, buffer, offset)
            == match got
               case Eintr => PartialRead(little, k', buffer, offset)
               case Eagain => Reading(Pending, buffer, offset, k')
               case Eof => Reading(Lost, buffer, offset, k')
               case Error => Reading(Lost, buffer, offset, k')
               case Bytes(bytes) => PartialRead(little, k', Fill(buffer, offset, bytes), offset + |bytes|)
  {
    hide Codec.Decode;
  }

  lemma PartialReadEnd(little: bool, k: Inbound, buffer: seq<byte>)
    requires |buffer| == PACKET_SIZE
    ensures var t := NetworkValue(buffer[0..4]);
            PartialRead(little, k, buffer, PACKET_SIZE)
            == if t > PACKET_SOCIAL then Reading(Rejected, buffer, PACKET_SIZE, k) else Reading(Ready(Swapped(little, buffer, t)), buffer, 0, k)
  {
    hide Swapped, NetworkValue;
  }

  /** `packet_receive_partial`: the buffer and its offset live in the caller's client record. */
  method PacketReceivePartial(little: bool, k: Inbound, buffer: seq<byte>, offset: nat)
    returns (status: Status, buffer': seq<byte>, offset': nat, k': Inbound)
    requires |buffer| == PACKET_SIZE && offset <= PACKET_SIZE
    ensures Reading(status, buffer', offset', k') == PartialRead(little, k, buffer, offset)
  {
    hide PartialRead, Swapped, NetworkValue, Fill;
    buffer', offset', k' := buffer, offset, k;
    while offset' < PACKET_SIZE
      invariant |buffer'| == PACKET_SIZE && offset' <= PACKET_SIZE
      invariant PartialRead(little, k', buffer', offset') == PartialRead(little, k, buffer, offset)
      decreases |k'.schedule|
    {
      PartialReadStep(little, k', buffer', offset');
      var r := Recv(k', PACKET_SIZE - offset');
      k' := r.1;
      match r.0
      case Eintr =>
      case Eagain => status := Pending; return;
      case Eof => status := Lost; return;
      case Error => status := Lost; return;
      case Bytes(bytes) =>
        buffer' := Fill(buffer', offset', bytes);
        offset' := offset' + |bytes|;
    }
    PartialReadEnd(little, k', buffer');
    var packet := new byte[PACKET_SIZE](i requires 0 <= i < PACKET_SIZE => buffer'[i]);
    assert packet[..] == buffer';
    var packetType := NetworkValue(packet[0..4]);
    assert packet[0..4] == buffer'[0..4];
    if packetType > PACKET_SOCIAL {
      status := Rejected;
      return;
    }
    SwapPacket(packet, packetType, little);
    offset' := 0;
    status := Ready(packet[..]);
  }

  /** `packet_receive`: blocks until one packet is complete; `Blocked` means the schedule ended first. */
  method PacketReceive(little: bool, k: Inbound) returns (status: BlockingStatus, k': Inbound)
    ensures (status, k') == BlockingRead(little, k, [])
  {
    k' := k;
    var packet := new byte[PACKET_SIZE](i => 0);
    var offset := 0;
    while offset < PACKET_SIZE
      invariant 0 <= offset <= PACKET_SIZE
      invariant BlockingRead(little, k', packet[..offset]) == BlockingRead(little, k, [])
      decreases |k'.schedule|
    {
      if k'.schedule == [] {
        status := Blocked;
        return;
      }
      ghost var got := packet[..offset];
      var outcome, r := k'.schedule[0], Recv(k', PACKET_SIZE - offset);
      k' := r.1;
      match r.0
      case Eintr =>
      case Eagain =>
        if outcome.NotReady? {
          status := ReadError;
          return;
        }
      case Eof => status := if offset == 0 then EndOfStream else ReadError; return;
      case Error => status := ReadError; return;
      case Bytes(bytes) =>
        StoreField(packet, Field(offset, |bytes|), bytes);
        offset := offset + |bytes|;
        assert packet[..offset] == got + bytes;
    }
    assert packet[..offset] == packet[..];
    var packetType := NetworkValue(packet[0..4]);
    if packetType > PACKET_SOCIAL {
      status := ProtocolError;
      return;
    }
    SwapPacket(packet, packetType, little);
    status := Whole(packet[..]);
  }

  /** What one `send` call will do; `Accepts(0)` is a call that returns zero. */
  datatype SendOutcome = Accepts(n: nat) | SendInterrupted | SendFails

  /** The sending side of a socket: the bytes the kernel has taken so far, and the outcomes still to come. */
  class Outbound {
    var output: seq<byte>
    var schedule: seq<SendOutcome>

    constructor (schedule: seq<SendOutcome>)
      ensures output == [] && this.schedule == schedule
    {
      output, this.schedule := [], schedule;
    }

    /** `send(fd, bytes, |bytes|, MSG_NOSIGNAL)`; a schedule that is over counts as an error. */
    method Send(bytes: seq<byte>) returns (count: int, interrupted: bool)
      requires bytes != []
      modifies this
      ensures -1 <= count <= |bytes|
      ensures interrupted ==> count == -1 && |schedule| < |old(schedule)|
      ensures |schedule| <= |old(schedule)|
      ensures output == old(output) + bytes[..if count < 0 then 0 else count]
    {
      count, interrupted := -1, false;
      if schedule != [] {
        var outcome := schedule[0];
        schedule := schedule[1..];
        match outcome
        case SendFails =>
        case SendInterrupted => interrupted := true;
        case Accepts(n) =>
          count := if n <= |bytes| then n else |bytes|;
          output := output + bytes[..count];
      }
    }

    /** `packet_send`: success means exactly the wire image went out, failure a strict prefix of it. */
    method PacketSend(little: bool, packet: seq<byte>) returns (rc: int)
      requires |packet| == PACKET_SIZE
      modifies this
      ensures rc == 0 || rc == -1
      ensures rc == 0 ==> output == old(output) + Encode(little, packet)
      ensures rc == -1 ==> exists n :: 0 <= n < PACKET_SIZE && output == old(output) + Encode(little, packet)[..n]
    {
      var wire := new byte[PACKET_SIZE](i requires 0 <= i < PACKET_SIZE => packet[i]);
      assert wire[..] == packet;
      SwapPacket(wire, HostValue(little, packet[0..4]), little);
      ghost var image := wire[..];
      var offset := 0;
      while offset < PACKET_SIZE
        invariant 0 <= offset <= PACKET_SIZE
        invariant wire[..] == image == Encode(little, packet)
        invariant output == old(output) + image[..offset]
        decreases PACKET_SIZE - offset, |schedule|
      {
        ghost var sofar := output;
        var count, interrupted := Send(wire[offset..]);
        if count < 0 && interrupted {
          continue;
        }
        if count <= 0 {
          assert output == old(output) + image[..offset];
          return -1;
        }
        assert wire[offset..][..count] == image[offset..offset + count];
        assert image[..offset + count] == image[..offset] + image[offset..offset + count];
        offset := offset + count;
      }
      assert image[..offset] == image;
      return 0;
    }
  }
}
