/** The event loop of `server/server.c`: a sweep over an array of records that shrinks under it. */
module EventLoop {
  import opened Codec
  import opened Names
  import opened Protocol
  import opened Stream
  import opened Listing
  import opened Server
  import opened Invariants
  import opened Database
  import opened Context
  import opened AuthHandlers
  import opened Sweep
  import opened Handover
  import SocialHandlers
  import ServerHandlers
  import ChatHandlers

  // ------------------------------------------------------------ the book-keeping of the loop

  function Fds(ws: seq<Wire>): set<int> {
    set w | w in ws :: w.fd
  }

  /** What was read from a connection is part of what its peer sent, and its packets were handed on; dropped connections included. */
  ghost predicate Kept(little: bool, heard: map<int, seq<byte>>, taken: map<int, seq<seq<byte>>>, streams: map<int, seq<byte>>) {
    forall fd :: fd in streams ==> fd in heard && fd in taken && heard[fd] <= streams[fd] && Packets(little, heard[fd]) == taken[fd]
  }

  lemma KeptUpdated(little: bool, heard: map<int, seq<byte>>, taken: map<int, seq<seq<byte>>>, streams: map<int, seq<byte>>,
                    fd: int, bytes: seq<byte>, images: seq<seq<byte>>)
    requires Kept(little, heard, taken, streams) && Packets(little, bytes) == images && (fd in streams ==> bytes <= streams[fd])
    ensures Kept(little, heard[fd := bytes], taken[fd := images], streams)
  {
    hide Packets;
  }

  lemma KeptAdded(little: bool, heard: map<int, seq<byte>>, taken: map<int, seq<seq<byte>>>, streams: map<int, seq<byte>>,
                  fd: int, stream: seq<byte>)
    requires Kept(little, heard, taken, streams)
    ensures Kept(little, heard[fd := []], taken[fd := []], streams[fd := stream])
  {
    PacketsShort(little, []);
    hide Packets;
  }

  /**
   Every connection is open, watched and below `max_fd`, nothing else is watched but the listener, and
   the bytes of every connection are accounted for.
   */
  ghost predicate WiredUp(little: bool, ws: seq<Wire>, sockets: map<int, Inbound>, masterSet: set<int>, serverFd: int, maxFd: int,
                          heard: map<int, seq<byte>>, taken: map<int, seq<seq<byte>>>, streams: map<int, seq<byte>>) {
    && (forall w :: w in ws ==> 0 < w.fd <= maxFd && w.fd != serverFd && w.fd in sockets)
    && (forall w :: w in ws ==> w.fd in heard && w.fd in taken && Fifo(little, heard[w.fd], taken[w.fd], w.pipe))
    && (forall w :: w in ws ==> w.fd in streams && heard[w.fd] + sockets[w.fd].input == streams[w.fd])
    && masterSet == {serverFd} + Fds(ws)
    && serverFd <= maxFd
    && Pairwise(FdsDiffer, ws)
    && Kept(little, heard, taken, streams)
  }

  ghost function Wires(ctx: ServerContext): (ws: seq<Wire>)
    reads ctx`clientCount, ctx.clients
    requires ctx.Valid()
    ensures |ws| == ctx.clientCount
  {
    WiresOf(ctx.Sessions(), ctx.Pipes())
  }

  ghost predicate Wired(ctx: ServerContext)
    reads ctx, ctx.clients
    requires ctx.Valid()
  {
    WiredUp(ctx.little, Wires(ctx), ctx.sockets, ctx.masterSet, ctx.serverFd, ctx.maxFd, ctx.heard, ctx.taken, ctx.streams)
  }

  lemma WiredReplaced(little: bool, ws: seq<Wire>, sockets: map<int, Inbound>, masterSet: set<int>, serverFd: int, maxFd: int,
                      heard: map<int, seq<byte>>, taken: map<int, seq<seq<byte>>>, streams: map<int, seq<byte>>,
                      i: nat, pipe: Pipe, socket: Inbound, bytes: seq<byte>, images: seq<seq<byte>>)
    requires WiredUp(little, ws, sockets, masterSet, serverFd, maxFd, heard, taken, streams) && i < |ws|
    requires Fifo(little, bytes, images, pipe) && (ws[i].fd in streams ==> bytes + socket.input == streams[ws[i].fd])
    ensures var fd := ws[i].fd;
            WiredUp(little, ws[i := Wire(fd, pipe)], sockets[fd := socket], masterSet, serverFd, maxFd, heard[fd := bytes], taken[fd := images], streams)
  {
    hide Fifo, Packets, Kept;
    var fd := ws[i].fd;
    FifoPackets(little, bytes, images, pipe);
    KeptUpdated(little, heard, taken, streams, fd, bytes, images);
    var ws' := ws[i := Wire(fd, pipe)];
    forall a, b | 0 <= a < b < |ws'| ensures FdsDiffer(ws'[a], ws'[b]) {
      assert FdsDiffer(ws[a], ws[b]);
    }
    forall w | w in ws' ensures w == ws'[i] || (w in ws && w.fd != fd) {
      var k :| 0 <= k < |ws'| && ws'[k] == w;
      var differ := FdsDiffer(ws[k], ws[i]) || FdsDiffer(ws[i], ws[k]);
    }
    assert ws[i] in ws && ws'[i] in ws';
    SameFds(ws, ws');
  }

  lemma SameFds(ws: seq<Wire>, ws': seq<Wire>)
    requires |ws| == |ws'| && forall k :: 0 <= k < |ws| ==> ws'[k].fd == ws[k].fd
    ensures Fds(ws) == Fds(ws')
  {}

  lemma WiredRemoved(little: bool, ws: seq<Wire>, sockets: map<int, Inbound>, masterSet: set<int>, serverFd: int, maxFd: int,
                     heard: map<int, seq<byte>>, taken: map<int, seq<seq<byte>>>, streams: map<int, seq<byte>>,
                     i: nat, bytes: seq<byte>, images: seq<seq<byte>>)
    requires WiredUp(little, ws, sockets, masterSet, serverFd, maxFd, heard, taken, streams) && i < |ws|
    requires Packets(little, bytes) == images && (ws[i].fd in streams ==> bytes <= streams[ws[i].fd])
    ensures var fd := ws[i].fd;
            WiredUp(little, ws[..i] + ws[i + 1..], sockets - {fd}, masterSet - {fd}, serverFd, maxFd, heard[fd := bytes], taken[fd := images], streams)
  {
    hide Fifo, Pairwise, Packets, Kept;
    WithoutOne(ws, i);
    var fd, ws' := ws[i].fd, ws[..i] + ws[i + 1..];
    KeptUpdated(little, heard, taken, streams, fd, bytes, images);
    assert ws[i] in ws;
  }

  /** Taking out one of distinct connections leaves the others. */
  lemma WithoutOne(ws: seq<Wire>, i: nat)
    requires Pairwise(FdsDiffer, ws) && i < |ws|
    ensures var ws' := ws[..i] + ws[i + 1..];
            && Pairwise(FdsDiffer, ws')
            && (forall w :: w in ws' <==> w in ws && w.fd != ws[i].fd)
            && Fds(ws') == Fds(ws) - {ws[i].fd}
  {}

  lemma WiredAdded(little: bool, ws: seq<Wire>, sockets: map<int, Inbound>, masterSet: set<int>, serverFd: int, maxFd: int,
                   heard: map<int, seq<byte>>, taken: map<int, seq<seq<byte>>>, streams: map<int, seq<byte>>,
                   fd: int, buffer: seq<byte>, socket: Inbound)
    requires WiredUp(little, ws, sockets, masterSet, serverFd, maxFd, heard, taken, streams)
    requires 0 < fd && fd !in masterSet && |buffer| == PACKET_SIZE
    ensures WiredUp(little, ws + [Wire(fd, Pipe(buffer, 0))], sockets[fd := socket], masterSet + {fd}, serverFd,
                    if fd > maxFd then fd else maxFd, heard[fd := []], taken[fd := []], streams[fd := socket.input])
  {
    var w := Wire(fd, Pipe(buffer, 0));
    assert Fifo(little, [], [], w.pipe);
    WithOne(ws, w);
    hide Fifo, Pairwise, Fds, Packets, Kept;
    KeptAdded(little, heard, taken, streams, fd, socket.input);
    assert [] + socket.input == socket.input;
  }

  /** One more connection, on a descriptor of its own. */
  lemma WithOne(ws: seq<Wire>, w: Wire)
    requires Pairwise(FdsDiffer, ws) && w.fd !in Fds(ws)
    ensures Pairwise(FdsDiffer, ws + [w]) && Fds(ws + [w]) == Fds(ws) + {w.fd}
    ensures forall x :: x in ws + [w] <==> x in ws || x == w
    ensures forall x :: x in ws ==> x.fd != w.fd
  {}

  // ------------------------------------------------------------ connections

  /** `handle_new_connection`; `fd` is what `accept` returned, -1 if it failed. */
  method HandleNewConnection(ctx: ServerContext, fd: int, arrived: Inbound) returns (newFd: int)
    requires ctx.Valid()
    modifies ctx`clientCount, ctx`sent, ctx`sockets, ctx`heard, ctx`taken, ctx`streams, ctx.clients
    ensures ctx.Valid()
    ensures newFd == if fd < 0 || old(ctx.clientCount) >= MAX_CLIENTS then -1 else fd
    ensures newFd == -1 ==> ctx.State() == old(ctx.State()) && Wires(ctx) == old(Wires(ctx)) && ctx.sockets == old(ctx.sockets)
                            && ctx.heard == old(ctx.heard) && ctx.taken == old(ctx.taken) && ctx.streams == old(ctx.streams)
    ensures fd >= 0 ==> ctx.State() == Connect(old(ctx.State()), fd)
    ensures newFd >= 0 ==> Wires(ctx) == old(Wires(ctx)) + [Wire(fd, Pipe(seq(PACKET_SIZE, j => 0), 0))]
                           && ctx.sockets == old(ctx.sockets)[fd := arrived]
                           && ctx.heard == old(ctx.heard)[fd := []] && ctx.taken == old(ctx.taken)[fd := []]
                           && ctx.streams == old(ctx.streams)[fd := arrived.input]
  {
    if fd < 0 {
      return -1;
    }
    if ctx.clientCount >= MAX_CLIENTS {
      return -1;
    }
    ghost var sessions, pipes := ctx.Sessions(), ctx.Pipes();
    ghost var c := Server.Session(0, fd, false, "", -1);
    var zero: seq<byte> := seq(PACKET_SIZE, j => 0);
    ctx.clients[ctx.clientCount] := ClientNode(Server.Session(0, fd, false, "", -1), zero, 0);
    ctx.clientCount := ctx.clientCount + 1;
    ctx.sent := ctx.sent + [Opened(fd)];
    ctx.sockets := ctx.sockets[fd := arrived];
    ctx.heard, ctx.taken, ctx.streams := ctx.heard[fd := []], ctx.taken[fd := []], ctx.streams[fd := arrived.input];
    assert ctx.Sessions() == sessions + [c];
    assert ctx.Pipes() == pipes + [Pipe(zero, 0)];
    return fd;
  }

  /** One record moves down. */
  lemma ShiftStep<T>(s: seq<T>, i: nat, j: nat)
    requires i <= j < |s| - 1
    ensures (s[..i] + s[i + 1..j + 1] + s[j..])[j := s[j + 1]] == s[..i] + s[i + 1..j + 2] + s[j + 1..]
  {}

  /** Moves the later records down by one, in place. */
  method ShiftDown(ctx: ServerContext, i: nat)
    requires ctx.Valid() && i < ctx.clientCount
    modifies ctx`clientCount, ctx.clients
    ensures ctx.Valid() && ctx.clientCount == old(ctx.clientCount) - 1
    ensures ctx.Nodes() == old(ctx.Nodes())[..i] + old(ctx.Nodes())[i + 1..]
  {
    ghost var was := ctx.Nodes();
    assert was == was[..i] + was[i + 1..i + 1] + was[i..];
    for j := i to ctx.clientCount - 1
      invariant ctx.clientCount == |was| && ctx.Nodes() == was[..i] + was[i + 1..j + 1] + was[j..]
    {
      ShiftStep(was, i, j);
      var next := ctx.clients[j + 1];
      assert next == ctx.Nodes()[j + 1] == was[j + 1];
      ctx.SetNode(j, next);
    }
    ghost var shifted := ctx.Nodes();
    ctx.clientCount := ctx.clientCount - 1;
    assert ctx.Nodes() == shifted[..|was| - 1] == was[..i] + was[i + 1..];
  }

  /** The sessions and the pipes of the remaining records. */
  lemma WithoutNode(nodes: seq<ClientNode>, i: nat)
    requires i < |nodes|
    ensures var rest := nodes[..i] + nodes[i + 1..];
            var sessions, pipes := Map((c: ClientNode) => c.session, nodes), Map((c: ClientNode) => Pipe(c.buffer, c.offset), nodes);
            && Map((c: ClientNode) => c.session, rest) == sessions[..i] + sessions[i + 1..]
            && Map((c: ClientNode) => Pipe(c.buffer, c.offset), rest) == pipes[..i] + pipes[i + 1..]
  {}

  /** A connection that is lost: closed, no longer watched, its record gone, and its user's absence announced. */
  method RemoveClient(ctx: ServerContext, i: nat)
    requires ctx.Valid() && i < ctx.clientCount && Good(ctx.State())
    modifies ctx`clientCount, ctx`sent, ctx`sockets, ctx`masterSet, ctx.clients
    ensures ctx.Valid() && ctx.clientCount == old(ctx.clientCount) - 1
    ensures ctx.State() == Disconnect(old(ctx.State()), i)
    ensures ctx.Pipes() == old(ctx.Pipes())[..i] + old(ctx.Pipes())[i + 1..]
    ensures var fd := old(ctx.Sessions())[i].fd;
            ctx.sockets == old(ctx.sockets) - {fd} && ctx.masterSet == old(ctx.masterSet) - {fd}
  {
    hide Announce, Good;
    ghost var s, nodes := ctx.State(), ctx.Nodes();
    var c := ctx.clients[i].session;
    assert c == ctx.Sessions()[i];
    WithoutNode(nodes, i);
    ctx.sockets := ctx.sockets - {c.fd};
    ctx.masterSet := ctx.masterSet - {c.fd};
    ShiftDown(ctx, i);
    RemovedIsGood(s, i);
    if c.authenticated && c.id > 0 {
      AnnounceChange(ctx, c.id);
    }
  }

  lemma RemovedIsGood(s: State, i: nat)
    requires Good(s) && i < |s.sessions|
    ensures Good(s.(sessions := s.sessions[..i] + s.sessions[i + 1..]))
  {}

  // ------------------------------------------------------------ packets

  /** `process_client_packet` */
  method ProcessClientPacket(ctx: ServerContext, i: nat, p: Packet, hashOk: bool)
    requires ctx.Valid() && i < ctx.clientCount && Good(ctx.State())
    modifies ctx`sent, ctx.clients, ctx.db
    ensures ctx.Valid() && ctx.Pipes() == old(ctx.Pipes())
    ensures ctx.State() == Dispatch(old(ctx.State()), i, p, hashOk)
  {
    hide HandleAuth, HandleDm, HandleServer, HandleChannel, HandleSocial, Good;
    ClientOfGoodState(ctx, i);
    var fd := ctx.clients[i].session.fd;
    assert ctx.clients[i].session == ctx.Sessions()[i];
    match p.payload
    case Auth(_, _, _, _) => HandleAuthPacket(ctx, fd, p, hashOk, i);
    case Dm(_, _, _, _, _) => ChatHandlers.HandlePrivateMessage(ctx, fd, p, i);
    case Server(_, _, _, _, _, _) => ServerHandlers.HandleServerPacket(ctx, i, p);
    case Channel(_, _, _, _, _, _, _) => ChatHandlers.HandleChannelMessage(ctx, fd, p, i);
    case Social(_, _, _, _, _, _) => SocialHandlers.HandleSocialPacket(ctx, i, p);
  }

  lemma DispatchKeepsGood(s: State, i: nat, p: Packet, hashOk: bool)
    requires Good(s) && i < |s.sessions|
    ensures Good(Dispatch(s, i, p, hashOk))
  {
    hide Good, Dispatch;
    StepKeepsGood(s, Request(i, p, hashOk));
  }

  // ------------------------------------------------------------ one readable connection

  /** The call of `packet_receive_partial` on a record. */
  method Receive(ctx: ServerContext, i: nat) returns (status: Status)
    requires ctx.Valid() && i < ctx.clientCount && Wired(ctx)
    modifies ctx`sockets, ctx`heard, ctx`taken, ctx.clients
    ensures ctx.Valid() && ctx.Sessions() == old(ctx.Sessions())
    ensures var w, k := old(Wires(ctx))[i], old(ctx.sockets);
            && w.fd in k && IsWhole(w)
            && var r := ReadingOf(ctx.little, w, k);
            && status == r.status
            && ctx.Pipes() == old(ctx.Pipes())[i := Pipe(r.buffer, r.offset)]
            && ctx.sockets == k[w.fd := r.socket]
            && |r.socket.input| <= |k[w.fd].input|
            && w.fd in old(ctx.heard) && w.fd in old(ctx.taken)
            && ctx.heard == old(ctx.heard)[w.fd := old(ctx.heard)[w.fd] + Taken(k[w.fd], r.socket)]
            && ctx.taken == old(ctx.taken)[w.fd := old(ctx.taken)[w.fd] + if status.Ready? then [status.image] else []]
  {
    hide PartialRead, WiresOf, WiredUp, Fifo, Taken;
    ghost var w, sessions, pipes, k := Wires(ctx)[i], ctx.Sessions(), ctx.Pipes(), ctx.sockets;
    WiredFifo(ctx, i);
    var c := ctx.clients[i];
    assert c.session == ctx.Sessions()[i] && Pipe(c.buffer, c.offset) == ctx.Pipes()[i];
    FifoStep(ctx.little, ctx.heard[w.fd], ctx.taken[w.fd], w.pipe, k[w.fd]);
    var buffer, offset, socket;
    status, buffer, offset, socket := PacketReceivePartial(ctx.little, ctx.sockets[c.session.fd], c.buffer, c.offset);
    ctx.clients[i] := c.(buffer := buffer, offset := offset);
    ctx.sockets := ctx.sockets[c.session.fd := socket];
    ctx.heard := ctx.heard[w.fd := ctx.heard[w.fd] + Taken(k[w.fd], socket)];
    ctx.taken := ctx.taken[w.fd := ctx.taken[w.fd] + if status.Ready? then [status.image] else []];
    assert ctx.Sessions() == sessions;
    assert ctx.Pipes() == pipes[i := Pipe(buffer, offset)];
  }

  ghost function BooksOf(ctx: ServerContext): Books
    reads ctx
  {
    Books(ctx.sockets, ctx.heard, ctx.taken)
  }

  /** What the service of the connection at place `i` does to the connections, the books and the state. */
  ghost predicate Served(little: bool, turn: Turn, w: Wire, i: nat, now: seq<Wire>, books: Books, state: State,
                         now': seq<Wire>, books': Books, state': State)
    requires i < |now| && i < |state.sessions| && IsWhole(w) && books.Has(w.fd)
    requires |ReadingOf(little, w, books.sockets).socket.input| <= |books.sockets[w.fd].input|
  {
    var r, read := ReadingOf(little, w, books.sockets), Read(little, books, w);
    if r.status.Rejected? || r.status.Lost? then
      && now' == now[..i] + now[i + 1..]
      && books' == read.(sockets := books.sockets - {w.fd})
      && state' == Disconnect(state, i)
    else
      && now' == now[i := Wire(w.fd, Pipe(r.buffer, r.offset))]
      && books' == read
      && state' == if r.status.Ready? then Dispatch(state, i, PacketOf(little, r.status.image), w.fd in turn.verdicts) else state
  }

  /** A whole packet: its request is handled, and the connections and their buffers stay as they are. */
  method HandleImage(ctx: ServerContext, i: nat, image: seq<byte>, hashOk: bool)
    requires ctx.Valid() && i < ctx.clientCount && Good(ctx.State()) && |image| == PACKET_SIZE
    modifies ctx`sent, ctx.clients, ctx.db
    ensures ctx.Valid() && Good(ctx.State()) && Wires(ctx) == old(Wires(ctx))
    ensures ctx.State() == Dispatch(old(ctx.State()), i, PacketOf(ctx.little, image), hashOk)
  {
    hide Good, Dispatch, PacketOf, WiresOf;
    ghost var s, pipes := ctx.State(), ctx.Pipes();
    var p := PacketOf(ctx.little, image);
    ProcessClientPacket(ctx, i, p, hashOk);
    DispatchKeepsGood(s, i, p, hashOk);
    DispatchKeepsFds(s, i, p, hashOk);
    SameWires(s.sessions, ctx.Sessions(), pipes);
  }

  lemma SameWires(sessions: seq<Server.Session>, sessions': seq<Server.Session>, pipes: seq<Pipe>)
    requires |sessions| == |sessions'| == |pipes| && forall k :: 0 <= k < |sessions| ==> sessions'[k].fd == sessions[k].fd
    ensures WiresOf(sessions', pipes) == WiresOf(sessions, pipes)
  {}

  /** A connection that goes: its record, its buffer, its socket. */
  method DropClient(ctx: ServerContext, i: nat)
    requires ctx.Valid() && i < ctx.clientCount && Good(ctx.State())
    modifies ctx`clientCount, ctx`sent, ctx`sockets, ctx`masterSet, ctx.clients
    ensures ctx.Valid() && ctx.clientCount == old(ctx.clientCount) - 1
    ensures Good(ctx.State()) && ctx.State() == Disconnect(old(ctx.State()), i)
    ensures var sessions, pipes, fd := old(ctx.Sessions()), old(ctx.Pipes()), old(ctx.Sessions())[i].fd;
            && Wires(ctx) == WiresOf(sessions[..i] + sessions[i + 1..], pipes[..i] + pipes[i + 1..])
            && ctx.sockets == old(ctx.sockets) - {fd} && ctx.masterSet == old(ctx.masterSet) - {fd}
  {
    hide Good, Disconnect, WiresOf;
    ghost var s := ctx.State();
    RemoveClient(ctx, i);
    DisconnectKeepsGood(s, i);
    DisconnectSessions(s, i);
  }

  /** The account after one read of connection `i`: without the connection if the read ends it, else with its new buffer. */
  lemma AfterRead(little: bool, sessions: seq<Server.Session>, pipes: seq<Pipe>, k: map<int, Inbound>, masterSet: set<int>, serverFd: int,
                  maxFd: int, heard: map<int, seq<byte>>, taken: map<int, seq<seq<byte>>>, streams: map<int, seq<byte>>, i: nat)
    requires |sessions| == |pipes| && i < |pipes|
    requires WiredUp(little, WiresOf(sessions, pipes), k, masterSet, serverFd, maxFd, heard, taken, streams)
    requires var w := WiresOf(sessions, pipes)[i];
             && IsWhole(w) && w.fd in k && w.fd in heard && w.fd in taken && w.fd in streams
             && Fifo(little, heard[w.fd], taken[w.fd], w.pipe) && heard[w.fd] + k[w.fd].input == streams[w.fd]
    ensures var ws, w := WiresOf(sessions, pipes), WiresOf(sessions, pipes)[i];
            var r := ReadingOf(little, w, k);
            var after := pipes[i := Pipe(r.buffer, r.offset)];
            && |r.socket.input| <= |k[w.fd].input|
            && var heard' := heard[w.fd := heard[w.fd] + Taken(k[w.fd], r.socket)];
            var taken' := taken[w.fd := taken[w.fd] + if r.status.Ready? then [r.status.image] else []];
            if r.status.Rejected? || r.status.Lost? then
              && WiresOf(sessions[..i] + sessions[i + 1..], after[..i] + after[i + 1..]) == ws[..i] + ws[i + 1..]
              && WiredUp(little, ws[..i] + ws[i + 1..], k[w.fd := r.socket] - {w.fd}, masterSet - {w.fd}, serverFd, maxFd, heard', taken', streams)
            else
              && WiresOf(sessions, after) == ws[i := Wire(w.fd, Pipe(r.buffer, r.offset))]
              && WiredUp(little, WiresOf(sessions, after), k[w.fd := r.socket], masterSet, serverFd, maxFd, heard', taken', streams)
  {
    hide PartialRead, WiredUp, Fifo, WiresOf, Taken, Decode, Packets, Kept;
    var ws, w := WiresOf(sessions, pipes), WiresOf(sessions, pipes)[i];
    var r := ReadingOf(little, w, k);
    FifoStep(little, heard[w.fd], taken[w.fd], w.pipe, k[w.fd]);
    TakenJoins(heard[w.fd], k[w.fd], r.socket);
    assert taken[w.fd] + [] == taken[w.fd];
    WiresWith(sessions, sessions, pipes, i, Pipe(r.buffer, r.offset));
    if r.status.Rejected? || r.status.Lost? {
      assert k[w.fd := r.socket] - {w.fd} == k - {w.fd};
      RemainingWires(sessions, pipes, i, Pipe(r.buffer, r.offset));
      WiredRemoved(little, ws, k, masterSet, serverFd, maxFd, heard, taken, streams, i, heard[w.fd] + Taken(k[w.fd], r.socket), taken[w.fd]);
    } else {
      WiredReplaced(little, ws, k, masterSet, serverFd, maxFd, heard, taken, streams, i, Pipe(r.buffer, r.offset), r.socket,
                    heard[w.fd] + Taken(k[w.fd], r.socket), taken[w.fd] + if r.status.Ready? then [r.status.image] else []);
    }
  }

  /** What the loop body does with a readable connection: read once, then drop it, handle a packet, or go on. */
  method ServiceClient(ctx: ServerContext, i: nat, turn: Turn) returns (removed: bool)
    requires ctx.Valid() && i < ctx.clientCount && Good(ctx.State()) && Wired(ctx)
    modifies ctx`clientCount, ctx`sent, ctx`sockets, ctx`masterSet, ctx`heard, ctx`taken, ctx.clients, ctx.db
    ensures ctx.Valid() && Good(ctx.State()) && Wired(ctx)
    ensures var w, books := old(Wires(ctx))[i], old(BooksOf(ctx));
            && IsWhole(w) && books.Has(w.fd)
            && var r := ReadingOf(ctx.little, w, books.sockets);
            && |r.socket.input| <= |books.sockets[w.fd].input|
            && removed == (r.status.Rejected? || r.status.Lost?)
            && Served(ctx.little, turn, w, i, old(Wires(ctx)), books, old(ctx.State()), Wires(ctx), BooksOf(ctx), ctx.State())
    ensures ctx.clientCount == if removed then old(ctx.clientCount) - 1 else old(ctx.clientCount)
  {
    hide PartialRead, Good, Disconnect, Dispatch, WiredUp, PacketOf, Fifo, WiresOf, Taken, Decode, Packets, Kept;
    ghost var w, k, s := Wires(ctx)[i], ctx.sockets, ctx.State();
    ghost var sessions, pipes := ctx.Sessions(), ctx.Pipes();
    WiredFifo(ctx, i);
    AfterRead(ctx.little, sessions, pipes, k, ctx.masterSet, ctx.serverFd, ctx.maxFd, ctx.heard, ctx.taken, ctx.streams, i);
    var status := Receive(ctx, i);
    assert ctx.State() == s;
    removed := status.Rejected? || status.Lost?;
    if removed {
      DropClient(ctx, i);
      assert k[w.fd := ReadingOf(ctx.little, w, k).socket] - {w.fd} == k - {w.fd};
    } else if status.Ready? {
      var hashOk := ctx.clients[i].session.fd in turn.verdicts;
      assert ctx.clients[i].session == ctx.Sessions()[i];
      HandleImage(ctx, i, status.image, hashOk);
    }
  }

  lemma TakenJoins(heard: seq<byte>, k: Inbound, k': Inbound)
    requires |k'.input| <= |k.input| && k.input == Taken(k, k') + k'.input
    ensures (heard + Taken(k, k')) + k'.input == heard + k.input
    ensures heard + Taken(k, k') <= heard + k.input
  {}

  lemma WiresWithout(sessions: seq<Server.Session>, pipes: seq<Pipe>, i: nat)
    requires |sessions| == |pipes| && i < |pipes|
    ensures var ws := WiresOf(sessions, pipes);
            WiresOf(sessions[..i] + sessions[i + 1..], pipes[..i] + pipes[i + 1..]) == ws[..i] + ws[i + 1..]
  {}

  /** The wires that remain do not depend on what the last read left in the record that goes. */
  lemma RemainingWires(sessions: seq<Server.Session>, pipes: seq<Pipe>, i: nat, pipe: Pipe)
    requires |sessions| == |pipes| && i < |pipes|
    ensures var ws, after := WiresOf(sessions, pipes), pipes[i := pipe];
            WiresOf(sessions[..i] + sessions[i + 1..], after[..i] + after[i + 1..]) == ws[..i] + ws[i + 1..]
  {
    WiresWithout(sessions, pipes[i := pipe], i);
    WiresWith(sessions, sessions, pipes, i, pipe);
    hide WiresOf;
  }

  lemma WiresWith(sessions: seq<Server.Session>, sessions': seq<Server.Session>, pipes: seq<Pipe>, i: nat, pipe: Pipe)
    requires |sessions| == |sessions'| == |pipes| && i < |pipes|
    requires forall k :: 0 <= k < |sessions| ==> sessions'[k].fd == sessions[k].fd
    ensures WiresOf(sessions', pipes[i := pipe]) == WiresOf(sessions, pipes)[i := Wire(sessions[i].fd, pipe)]
    ensures WiresOf(sessions, pipes)[i] == Wire(sessions[i].fd, pipes[i])
  {}

  lemma WiredFifo(ctx: ServerContext, i: nat)
    requires ctx.Valid() && i < ctx.clientCount && Wired(ctx)
    ensures var w := Wires(ctx)[i];
            && w == Wire(ctx.Sessions()[i].fd, ctx.Pipes()[i]) && 0 < w.fd && IsWhole(w) && w.fd in ctx.sockets && w.fd in ctx.heard && w.fd in ctx.taken
            && Fifo(ctx.little, ctx.heard[w.fd], ctx.taken[w.fd], w.pipe)
            && w.fd in ctx.streams && ctx.heard[w.fd] + ctx.sockets[w.fd].input == ctx.streams[w.fd]
  {}

  // ------------------------------------------------------------ one pass

  /** The sweep has dealt with the first `j` of the connections `ws`; the others are as they were. */
  ghost predicate SweptTo(little: bool, ws: seq<Wire>, turn: Turn, before: Books, s: State,
                          j: nat, now: seq<Wire>, books: Books, state: State)
    requires j <= |ws|
  {
    && state == ServeAll(little, s, Plan(little, ws[..j], turn, before.sockets))
    && now == WiresAfter(little, ws[..j], turn, before.sockets) + ws[j..]
    && (forall w :: w in ws[j..] ==> w.fd in before.sockets && w.fd in books.sockets && books.sockets[w.fd] == before.sockets[w.fd])
    && (forall w :: w in now ==> Balanced(before, books, Plan(little, ws[..j], turn, before.sockets), w.fd))
    && Entered(before, books, Plan(little, ws[..j], turn, before.sockets))
    && (forall w :: w in ws[..j] && w.fd in books.sockets ==> w.fd in before.sockets && books.sockets[w.fd] == SocketAfter(little, w, turn, before.sockets))
  }

  /** One element taken out of the middle of a sequence, or replaced. */
  lemma Splice<T>(a: seq<T>, w: T, c: seq<T>, x: T)
    ensures var s := a + ([w] + c);
            s[|a|] == w && s[..|a|] + s[|a| + 1..] == (a + []) + c && s[|a| := x] == (a + [x]) + c && s == (a + [w]) + c
  {}

  lemma SweepPasses(little: bool, ws: seq<Wire>, turn: Turn, before: Books, s: State, j: nat, now: seq<Wire>, books: Books, state: State)
    requires j < |ws| && SweptTo(little, ws, turn, before, s, j, now, books, state)
    requires !IsServed(ws[j], turn.ready, before.sockets)
    ensures SweptTo(little, ws, turn, before, s, j + 1, now, books, state)
  {
    hide Balanced, Entered, ServeAll, Plan, WiresAfter, IsServed, ReadingOf;
    PlanStep(little, ws, j, turn, before.sockets);
    assert ws[j..] == [ws[j]] + ws[j + 1..];
    var plan, after := Plan(little, ws[..j], turn, before.sockets), WiresAfter(little, ws[..j], turn, before.sockets);
    assert plan + [] == plan;
    Splice(after, ws[j], ws[j + 1..], ws[j]);
    forall w | w in ws[j + 1..] ensures w in ws[j..] {}
    assert ws[j] in ws[j..];
    assert ws[..j + 1] == ws[..j] + [ws[j]];
  }

  /** A connection that is there after the service is the one served or was there before. */
  lemma StillThere(now: seq<Wire>, i: nat, pipe: Pipe, x: Wire)
    requires Pairwise(FdsDiffer, now) && i < |now|
    ensures x in now[..i] + now[i + 1..] ==> x in now && x.fd != now[i].fd
    ensures x in now[i := Wire(now[i].fd, pipe)] ==> x.fd == now[i].fd || x in now
  {}

  lemma ServedState(little: bool, ws: seq<Wire>, turn: Turn, before: Books, s: State, j: nat, i: nat, now: seq<Wire>, books: Books,
                    state: State, now': seq<Wire>, books': Books, state': State)
    requires j < |ws| && i < |now| && i < |state.sessions| && Good(state) && state.sessions[i].fd == ws[j].fd
    requires books.Has(ws[j].fd) && IsServed(ws[j], turn.ready, before.sockets) && before.sockets[ws[j].fd] == books.sockets[ws[j].fd]
    requires |ReadingOf(little, ws[j], books.sockets).socket.input| <= |books.sockets[ws[j].fd].input|
    requires Served(little, turn, ws[j], i, now, books, state, now', books', state')
    requires state == ServeAll(little, s, Plan(little, ws[..j], turn, before.sockets))
    ensures state' == ServeAll(little, s, Plan(little, ws[..j + 1], turn, before.sockets))
  {
    hide PartialRead, Good, Disconnect, Dispatch, PacketOf, Serve, ServeAll;
    var plan, jobs := Plan(little, ws[..j], turn, before.sockets), JobOf(little, ws[j], turn, before.sockets);
    PlanStep(little, ws, j, turn, before.sockets);
    if jobs == [] {
      assert plan + jobs == plan;
    } else {
      assert jobs == [jobs[0]];
      ServeOne(little, s, plan, jobs[0]);
      ServeAt(little, state, i, jobs[0]);
    }
  }

  lemma ServedWires(little: bool, ws: seq<Wire>, turn: Turn, before: Books, j: nat, i: nat, now: seq<Wire>, books: Books,
                    state: State, now': seq<Wire>, books': Books, state': State)
    requires j < |ws| && i < |now| && i < |state.sessions|
    requires books.Has(ws[j].fd) && IsServed(ws[j], turn.ready, before.sockets) && before.sockets[ws[j].fd] == books.sockets[ws[j].fd]
    requires |ReadingOf(little, ws[j], books.sockets).socket.input| <= |books.sockets[ws[j].fd].input|
    requires Served(little, turn, ws[j], i, now, books, state, now', books', state')
    requires i == |WiresAfter(little, ws[..j], turn, before.sockets)|
    requires now == WiresAfter(little, ws[..j], turn, before.sockets) + ws[j..]
    ensures now' == WiresAfter(little, ws[..j + 1], turn, before.sockets) + ws[j + 1..]
  {
    hide PartialRead, Disconnect, Dispatch, PacketOf, WiresAfter, Plan, Read;
    PlanStep(little, ws, j, turn, before.sockets);
    assert ws[j..] == [ws[j]] + ws[j + 1..];
    var r := ReadingOf(little, ws[j], books.sockets);
    Splice(WiresAfter(little, ws[..j], turn, before.sockets), ws[j], ws[j + 1..], Wire(ws[j].fd, Pipe(r.buffer, r.offset)));
  }

  lemma ServedBalance(little: bool, turn: Turn, before: Books, plan: seq<Job>, w: Wire, i: nat, now: seq<Wire>, books: Books,
                      state: State, now': seq<Wire>, books': Books, state': State, x: Wire)
    requires i < |now| && i < |state.sessions| && now[i] == w && Pairwise(FdsDiffer, now) && x in now'
    requires books.Has(w.fd) && IsServed(w, turn.ready, before.sockets) && before.sockets[w.fd] == books.sockets[w.fd]
    requires Fifo(little, books.heard[w.fd], books.taken[w.fd], w.pipe)
    requires |ReadingOf(little, w, books.sockets).socket.input| <= |books.sockets[w.fd].input|
    requires Served(little, turn, w, i, now, books, state, now', books', state')
    requires forall y :: y in now ==> Balanced(before, books, plan, y.fd)
    ensures Balanced(before, books', plan + JobOf(little, w, turn, before.sockets), x.fd)
  {
    hide PartialRead, Disconnect, Dispatch, PacketOf, Fifo, JobOf, ImagesFor, Pairwise;
    var r := ReadingOf(little, w, books.sockets);
    StillThere(now, i, Pipe(r.buffer, r.offset), x);
    assert w in now;
    assert Balanced(before, books, plan, w.fd);
    assert Balanced(before, books, plan, x.fd);
    ReadBalances(little, before, books, plan, w, turn, x.fd);
  }

  lemma ServedEnters(little: bool, turn: Turn, before: Books, plan: seq<Job>, w: Wire, i: nat, now: seq<Wire>, books: Books,
                     state: State, now': seq<Wire>, books': Books, state': State)
    requires i < |now| && i < |state.sessions|
    requires books.Has(w.fd) && IsServed(w, turn.ready, before.sockets) && before.sockets[w.fd] == books.sockets[w.fd]
    requires |ReadingOf(little, w, books.sockets).socket.input| <= |books.sockets[w.fd].input|
    requires Served(little, turn, w, i, now, books, state, now', books', state') && Entered(before, books, plan)
    ensures Entered(before, books', plan + JobOf(little, w, turn, before.sockets))
  {
    hide PartialRead, Disconnect, Dispatch, PacketOf, Entered, JobOf;
    OneEntered(little, before, books, books', plan, w, turn, before.sockets);
  }

  lemma SweepKeeps(little: bool, ws: seq<Wire>, turn: Turn, before: Books, s: State, j: nat, now: seq<Wire>, books: Books, state: State,
                   i: nat, now': seq<Wire>, books': Books, state': State)
    requires j < |ws| && SweptTo(little, ws, turn, before, s, j, now, books, state)
    requires Pairwise(FdsDiffer, now) && Pairwise(FdsDiffer, ws)
    requires i == |WiresAfter(little, ws[..j], turn, before.sockets)| && Good(state)
    requires i < |now| && i < |state.sessions| && state.sessions[i].fd == ws[j].fd
    requires IsServed(ws[j], turn.ready, before.sockets) && books.Has(ws[j].fd)
    requires Fifo(little, books.heard[ws[j].fd], books.taken[ws[j].fd], ws[j].pipe)
    requires |ReadingOf(little, ws[j], books.sockets).socket.input| <= |books.sockets[ws[j].fd].input|
    requires Served(little, turn, ws[j], i, now, books, state, now', books', state')
    ensures SweptTo(little, ws, turn, before, s, j + 1, now', books', state')
  {
    hide Served, Balanced, Entered, Good, Fifo, Plan, WiresAfter, ServeAll, ReadingOf, JobOf;
    var w, plan := ws[j], Plan(little, ws[..j], turn, before.sockets);
    assert ws[j..] == [w] + ws[j + 1..];
    assert w in ws[j..] && now[i] == w;
    ServedState(little, ws, turn, before, s, j, i, now, books, state, now', books', state');
    ServedWires(little, ws, turn, before, j, i, now, books, state, now', books', state');
    PlanStep(little, ws, j, turn, before.sockets);
    ServedEnters(little, turn, before, plan, w, i, now, books, state, now', books', state');
    forall x | x in now' ensures Balanced(before, books', plan + JobOf(little, w, turn, before.sockets), x.fd) {
      ServedBalance(little, turn, before, plan, w, i, now, books, state, now', books', state', x);
    }
    forall x | x in ws[j + 1..] ensures x in ws[j..] && x.fd != w.fd {
      LaterDiffers(ws, j, x);
    }
    ServedSockets(little, turn, w, i, now, books, state, now', books', state');
    forall x | x in ws[..j + 1] && x.fd in books'.sockets
      ensures x.fd in before.sockets && books'.sockets[x.fd] == SocketAfter(little, x, turn, before.sockets)
    {
      EarlierDiffers(ws, j, x);
      SameReading(little, w, books.sockets, before.sockets);
    }
  }

  lemma SameReading(little: bool, w: Wire, k: map<int, Inbound>, k': map<int, Inbound>)
    requires IsWhole(w) && w.fd in k && w.fd in k' && k[w.fd] == k'[w.fd]
    ensures ReadingOf(little, w, k) == ReadingOf(little, w, k')
  {}

  lemma LaterDiffers(ws: seq<Wire>, j: nat, x: Wire)
    requires Pairwise(FdsDiffer, ws) && j < |ws| && x in ws[j + 1..]
    ensures x in ws[j..] && x.fd != ws[j].fd
  {
    var k :| 0 <= k < |ws[j + 1..]| && ws[j + 1..][k] == x;
    assert ws[j + 1 + k] == x && FdsDiffer(ws[j], ws[j + 1 + k]) && ws[j..][k + 1] == x;
  }

  lemma EarlierDiffers(ws: seq<Wire>, j: nat, x: Wire)
    requires Pairwise(FdsDiffer, ws) && j < |ws| && x in ws[..j + 1]
    ensures x == ws[j] || (x in ws[..j] && x.fd != ws[j].fd)
  {}

  lemma ServedSockets(little: bool, turn: Turn, w: Wire, i: nat, now: seq<Wire>, books: Books, state: State,
                      now': seq<Wire>, books': Books, state': State)
    requires i < |now| && i < |state.sessions| && IsWhole(w) && books.Has(w.fd)
    requires |ReadingOf(little, w, books.sockets).socket.input| <= |books.sockets[w.fd].input|
    requires Served(little, turn, w, i, now, books, state, now', books', state')
    ensures forall fd :: fd != w.fd ==> (fd in books'.sockets <==> fd in books.sockets)
    ensures forall fd :: fd in books.sockets && fd != w.fd ==> books'.sockets[fd] == books.sockets[fd]
    ensures w.fd in books'.sockets ==> books'.sockets[w.fd] == ReadingOf(little, w, books.sockets).socket
  {
    hide ReadingOf, Disconnect, Dispatch, PacketOf;
  }

  lemma SweepStarts(little: bool, ws: seq<Wire>, turn: Turn, before: Books, s: State)
    requires forall w :: w in ws ==> before.Has(w.fd)
    ensures SweptTo(little, ws, turn, before, s, 0, ws, before, s)
    ensures WiresAfter(little, ws[..0], turn, before.sockets) == []
  {
    assert ws[..0] == [] && ws[0..] == ws;
    NothingEntered(before);
    hide Entered;
    forall w | w in ws ensures Balanced(before, before, [], w.fd) {
      assert before.taken[w.fd] + [] == before.taken[w.fd];
    }
  }

  lemma SweepEnds(little: bool, ws: seq<Wire>, turn: Turn, before: Books, s: State, now: seq<Wire>, books: Books, state: State)
    requires SweptTo(little, ws, turn, before, s, |ws|, now, books, state)
    ensures state == ServeAll(little, s, Plan(little, ws, turn, before.sockets))
    ensures now == WiresAfter(little, ws, turn, before.sockets)
    ensures forall w :: w in now ==> Balanced(before, books, Plan(little, ws, turn, before.sockets), w.fd)
    ensures Entered(before, books, Plan(little, ws, turn, before.sockets))
    ensures forall w :: w in ws && w.fd in books.sockets ==> w.fd in before.sockets && books.sockets[w.fd] == SocketAfter(little, w, turn, before.sockets)
  {
    hide ServeAll, Plan, WiresAfter, Balanced, Entered;
    assert ws[..|ws|] == ws && ws[|ws|..] == [];
  }

  /** The body of the loop over the records: nothing to do unless the connection is readable. */
  method SweepOne(ctx: ServerContext, i: nat, turn: Turn, ghost ws: seq<Wire>, ghost before: Books, ghost s: State, ghost j: nat)
    returns (removed: bool)
    requires ctx.Valid() && Good(ctx.State()) && Wired(ctx) && i < ctx.clientCount && j < |ws|
    requires i == |WiresAfter(ctx.little, ws[..j], turn, before.sockets)| && Pairwise(FdsDiffer, ws)
    requires SweptTo(ctx.little, ws, turn, before, s, j, Wires(ctx), BooksOf(ctx), ctx.State())
    modifies ctx`clientCount, ctx`sent, ctx`sockets, ctx`masterSet, ctx`heard, ctx`taken, ctx.clients, ctx.db
    ensures ctx.Valid() && Good(ctx.State()) && Wired(ctx)
    ensures ctx.clientCount == if removed then old(ctx.clientCount) - 1 else old(ctx.clientCount)
    ensures |WiresAfter(ctx.little, ws[..j + 1], turn, before.sockets)| == if removed then i else i + 1
    ensures SweptTo(ctx.little, ws, turn, before, s, j + 1, Wires(ctx), BooksOf(ctx), ctx.State())
  {
    hide Good, WiredUp, SweptTo, Served, ServeAll, Plan, WiresAfter, Balanced, Entered, PartialRead, Disconnect, Dispatch, PacketOf, Fifo, WiresOf, JobOf;
    ghost var now, books, state := Wires(ctx), BooksOf(ctx), ctx.State();
    NextWire(ctx.little, ws, turn, before, s, j, now, books, state, i);
    WiredFifo(ctx, i);
    WiredDistinct(ctx);
    PlanStep(ctx.little, ws, j, turn, before.sockets);
    var fd := ctx.clients[i].session.fd;
    assert ctx.clients[i].session == ctx.Sessions()[i];
    removed := false;
    if fd > 0 && fd in turn.ready {
      removed := ServiceClient(ctx, i, turn);
      SweepKeeps(ctx.little, ws, turn, before, s, j, now, books, state, i, Wires(ctx), BooksOf(ctx), ctx.State());
    } else {
      SweepPasses(ctx.little, ws, turn, before, s, j, now, books, state);
    }
  }

  /** The loop of a pass over the records; it goes one place back whenever a record is taken out. */
  method SweepClients(ctx: ServerContext, turn: Turn)
    requires ctx.Valid() && Good(ctx.State()) && Wired(ctx)
    modifies ctx`clientCount, ctx`sent, ctx`sockets, ctx`masterSet, ctx`heard, ctx`taken, ctx.clients, ctx.db
    ensures ctx.Valid() && Good(ctx.State()) && Wired(ctx)
    ensures var plan := Plan(ctx.little, old(Wires(ctx)), turn, old(ctx.sockets));
            && ctx.State() == ServeAll(ctx.little, old(ctx.State()), plan)
            && Wires(ctx) == WiresAfter(ctx.little, old(Wires(ctx)), turn, old(ctx.sockets))
            && (forall w :: w in Wires(ctx) ==> Balanced(old(BooksOf(ctx)), BooksOf(ctx), plan, w.fd))
            && Entered(old(BooksOf(ctx)), BooksOf(ctx), plan)
            && (forall w :: w in old(Wires(ctx)) && w.fd in ctx.sockets ==>
                  w.fd in old(ctx.sockets) && ctx.sockets[w.fd] == SocketAfter(ctx.little, w, turn, old(ctx.sockets)))
  {
    hide Good, WiredUp, SweptTo, ServeAll, Plan, WiresAfter, Balanced, Entered, WiresOf, SocketAfter;
    ghost var ws, before, s := Wires(ctx), BooksOf(ctx), ctx.State();
    AllWired(ctx);
    WiredDistinct(ctx);
    SweepStarts(ctx.little, ws, turn, before, s);
    ghost var j := 0;
    var i := 0;
    while i < ctx.clientCount
      invariant ctx.Valid() && Good(ctx.State()) && Wired(ctx)
      invariant 0 <= i <= ctx.clientCount && 0 <= j <= |ws| && ctx.clientCount - i == |ws| - j
      invariant i == |WiresAfter(ctx.little, ws[..j], turn, before.sockets)|
      invariant SweptTo(ctx.little, ws, turn, before, s, j, Wires(ctx), BooksOf(ctx), ctx.State())
      decreases ctx.clientCount - i
    {
      var removed := SweepOne(ctx, i, turn, ws, before, s, j);
      if removed {
        i := i - 1;
      }
      j := j + 1;
      i := i + 1;
    }
    SweepEnds(ctx.little, ws, turn, before, s, Wires(ctx), BooksOf(ctx), ctx.State());
  }

  lemma AllWired(ctx: ServerContext)
    requires ctx.Valid() && Wired(ctx)
    ensures forall w :: w in Wires(ctx) ==> BooksOf(ctx).Has(w.fd)
  {}

  lemma WiredDistinct(ctx: ServerContext)
    requires ctx.Valid() && Wired(ctx)
    ensures Pairwise(FdsDiffer, Wires(ctx))
  {}

  /** The record at place `i` is the next connection of the start of the pass, with its socket untouched. */
  lemma NextWire(little: bool, ws: seq<Wire>, turn: Turn, before: Books, s: State, j: nat, now: seq<Wire>, books: Books, state: State, i: nat)
    requires j < |ws| && SweptTo(little, ws, turn, before, s, j, now, books, state)
    requires i == |WiresAfter(little, ws[..j], turn, before.sockets)|
    ensures i < |now| && now[i] == ws[j]
    ensures ws[j].fd in before.sockets && ws[j].fd in books.sockets && books.sockets[ws[j].fd] == before.sockets[ws[j].fd]
  {
    hide Balanced, Entered, ServeAll, Plan, WiresAfter;
    assert ws[j..][0] == ws[j];
    assert ws[j] in ws[j..];
  }

  // ------------------------------------------------------------ the passes

  /** The descriptor that a pass adds, or -1: the listener must be readable, and the kernel hands out a fresh one. */
  function Joining(turn: Turn, masterSet: set<int>, serverFd: int): (fd: int)
    ensures fd == -1 || (fd > 0 && fd !in masterSet)
  {
    if serverFd in turn.ready && turn.accepted > 0 && turn.accepted !in masterSet then turn.accepted else -1
  }

  /** The sockets that `select` reports are among those that are watched. */
  function Reported(turn: Turn, masterSet: set<int>): Turn {
    turn.(ready := turn.ready * masterSet)
  }

  /** The state, the connections and the sockets after the new connection, when the sweep begins. */
  function StateJoined(s: State, fd: int): State {
    if fd < 0 then s else Connect(s, fd)
  }

  function WiresJoined(ws: seq<Wire>, fd: int): seq<Wire> {
    if fd < 0 || |ws| >= MAX_CLIENTS then ws else ws + [Wire(fd, Pipe(seq(PACKET_SIZE, j => 0), 0))]
  }

  function BooksJoined(books: Books, ws: seq<Wire>, fd: int, arrived: Inbound): Books {
    if fd < 0 || |ws| >= MAX_CLIENTS then books
    else Books(books.sockets[fd := arrived], books.heard[fd := []], books.taken[fd := []])
  }

  /** The part of a pass before the sweep: a connection that waits at the listener is accepted and watched. */
  method AcceptWaiting(ctx: ServerContext, turn: Turn)
    requires ctx.Valid() && Wired(ctx)
    modifies ctx`clientCount, ctx`sent, ctx`sockets, ctx`heard, ctx`taken, ctx`streams, ctx`masterSet, ctx`maxFd, ctx.clients
    ensures ctx.Valid() && Wired(ctx)
    ensures var fd := Joining(turn, old(ctx.masterSet), ctx.serverFd);
            && ctx.State() == StateJoined(old(ctx.State()), fd)
            && Wires(ctx) == WiresJoined(old(Wires(ctx)), fd)
            && BooksOf(ctx) == BooksJoined(old(BooksOf(ctx)), old(Wires(ctx)), fd, turn.arrived)
  {
    hide WiredUp, Connect;
    ghost var ws, books, streams := Wires(ctx), BooksOf(ctx), ctx.streams;
    if ctx.serverFd in turn.ready * ctx.masterSet {
      var newFd := HandleNewConnection(ctx, Joining(turn, ctx.masterSet, ctx.serverFd), turn.arrived);
      if newFd != -1 {
        WiredAdded(ctx.little, ws, books.sockets, ctx.masterSet, ctx.serverFd, ctx.maxFd, books.heard, books.taken, streams,
                   newFd, seq(PACKET_SIZE, j => 0), turn.arrived);
        ctx.masterSet := ctx.masterSet + {newFd};
        if newFd > ctx.maxFd {
          ctx.maxFd := newFd;
        }
      }
    } else {
      ListenerWatched(ctx);
    }
  }

  /**
   One pass of `run_server_loop`.  It ends; it reads once from every connection that was readable when it
   began, in their order, and from no other, a connection it has just accepted included; the connections
   that stay keep their order and their buffers; every packet is handled in the state that the jobs before
   it left.
   */
  method RunPass(ctx: ServerContext, turn: Turn) returns (ghost events: seq<Event>)
    requires ctx.Valid() && Good(ctx.State()) && Wired(ctx)
    modifies ctx, ctx.clients, ctx.db
    ensures ctx.Valid() && Good(ctx.State()) && Wired(ctx)
    ensures var fd, seen := Joining(turn, old(ctx.masterSet), ctx.serverFd), Reported(turn, old(ctx.masterSet));
            var ws, books := WiresJoined(old(Wires(ctx)), fd), BooksJoined(old(BooksOf(ctx)), old(Wires(ctx)), fd, turn.arrived);
            var plan := Plan(ctx.little, ws, seen, books.sockets);
            && ctx.State() == ServeAll(ctx.little, StateJoined(old(ctx.State()), fd), plan)
            && Wires(ctx) == WiresAfter(ctx.little, ws, seen, books.sockets)
            && (forall w :: w in Wires(ctx) ==> Balanced(books, BooksOf(ctx), plan, w.fd))
            && (forall w :: w in ws && w.fd in ctx.sockets ==>
                  w.fd in books.sockets && ctx.sockets[w.fd] == SocketAfter(ctx.little, w, seen, books.sockets))
    ensures var seen := turn.(ready := turn.ready * old(ctx.masterSet));
            if ctx.serverFd in turn.ready && turn.accepted > 0 && turn.accepted !in old(ctx.masterSet) && old(ctx.clientCount) < MAX_CLIENTS
            then Wires(ctx) == WiresAfter(ctx.little, old(Wires(ctx)), seen, old(ctx.sockets)[turn.accepted := turn.arrived])
                               + [Wire(turn.accepted, Pipe(seq(PACKET_SIZE, j => 0), 0))]
            else Wires(ctx) == WiresAfter(ctx.little, old(Wires(ctx)), seen, old(ctx.sockets))
    ensures Runs(old(ctx.State()), events) && ctx.State() == Run(old(ctx.State()), events)
    ensures forall fd :: BookIsHandled(ctx.little, old(BooksOf(ctx)), BooksOf(ctx), old(ctx.State()), events, fd)
  {
    hide Good, WiredUp, ServeAll, Plan, WiresAfter, Balanced, Entered, Connect, Runs, Run, SocketAfter, BookIsHandled, EventsOf;
    ghost var s, ws, books, fd := ctx.State(), Wires(ctx), BooksOf(ctx), Joining(turn, ctx.masterSet, ctx.serverFd);
    var seen := Reported(turn, ctx.masterSet);
    JoiningIsFresh(ctx, turn);
    JoinedIsGood(s, fd);
    JoinedIsRun(s, fd);
    AcceptWaiting(ctx, turn);
    ghost var s0, joined, start := ctx.State(), BooksOf(ctx).sockets, BooksOf(ctx);
    WiresHaveFds(ctx);
    SweepClients(ctx, seen);
    NewcomerWaits(ctx.little, ws, Wire(fd, Pipe(seq(PACKET_SIZE, j => 0), 0)), seen, joined);
    ghost var plan := Plan(ctx.little, WiresJoined(ws, fd), seen, joined);
    ServeAllIsRun(ctx.little, s0, plan);
    RunAppend(s, JoinEvents(fd), EventsOf(ctx.little, s0, plan));
    events := JoinEvents(fd) + EventsOf(ctx.little, s0, plan);
    forall x ensures BookIsHandled(ctx.little, books, BooksOf(ctx), s, events, x) {
      JoinedIsHandled(ctx.little, s, books, ws, fd, turn.arrived, x);
      PassIsHandled(ctx.little, start, BooksOf(ctx), s0, WiresJoined(ws, fd), seen, joined, x);
      HandledInTurn(ctx.little, books, start, BooksOf(ctx), s, JoinEvents(fd), EventsOf(ctx.little, s0, plan), x);
    }
  }

  lemma ListenerWatched(ctx: ServerContext)
    requires ctx.Valid() && Wired(ctx)
    ensures ctx.serverFd in ctx.masterSet
  {}

  lemma JoiningIsFresh(ctx: ServerContext, turn: Turn)
    requires ctx.Valid() && Wired(ctx)
    ensures var fd := Joining(turn, ctx.masterSet, ctx.serverFd); fd >= 0 ==> FreshFd(ctx.State(), fd)
  {
    var fd, ws := Joining(turn, ctx.masterSet, ctx.serverFd), Wires(ctx);
    forall i | 0 <= i < |ws| ensures ws[i].fd in ctx.masterSet {
      assert ws[i] in ws && ws[i].fd in Fds(ws);
    }
    forall i | 0 <= i < |ws| && fd >= 0 ensures ctx.State().sessions[i].fd != fd {
      assert ws[i].fd == ctx.Sessions()[i].fd;
    }
  }

  lemma JoinedIsGood(s: State, fd: int)
    requires Good(s) && (fd == -1 || (fd > 0 && FreshFd(s, fd)))
    ensures Good(StateJoined(s, fd))
  {}

  ghost predicate FreshFd(s: State, fd: int) {
    forall i :: 0 <= i < |s.sessions| ==> s.sessions[i].fd != fd
  }

  function JoinEvents(fd: int): seq<Event> {
    if fd < 0 then [] else [Accept(fd)]
  }

  /** A new connection is an event, and so is a pass without one. */
  lemma JoinedIsRun(s: State, fd: int)
    requires fd == -1 || (fd > 0 && FreshFd(s, fd))
    ensures Runs(s, JoinEvents(fd)) && Run(s, JoinEvents(fd)) == StateJoined(s, fd)
  {
    if fd >= 0 {
      RunOne(s, Accept(fd));
    }
  }

  /** A connection that is added begins with an empty book. */
  lemma JoinedIsHandled(little: bool, s: State, books: Books, ws: seq<Wire>, fd: int, arrived: Inbound, x: int)
    requires (fd == -1 || (fd > 0 && FreshFd(s, fd))) && |ws| == |s.sessions|
    ensures Runs(s, JoinEvents(fd)) && BookIsHandled(little, books, BooksJoined(books, ws, fd, arrived), s, JoinEvents(fd), x)
  {
    JoinedIsRun(s, fd);
    if fd >= 0 {
      HandledOne(s, Accept(fd), x, AsPackets(little, BookFor(books.taken, x)));
    }
  }

  /** Every connection has its record, and no two are on one descriptor. */
  lemma WiresHaveFds(ctx: ServerContext)
    requires ctx.Valid() && Wired(ctx)
    ensures Pairwise(FdsDiffer, Wires(ctx)) && forall w :: w in Wires(ctx) ==> HasFd(ctx.State(), w.fd)
  {
    forall w | w in Wires(ctx) ensures HasFd(ctx.State(), w.fd) {
      var k :| 0 <= k < |Wires(ctx)| && Wires(ctx)[k] == w;
      assert ctx.State().sessions[k].fd == w.fd;
    }
  }

  lemma EmptyRunIsHandled(little: bool, books: Books, s: State)
    ensures forall fd :: BookIsHandled(little, books, books, s, [], fd)
  {
    hide AsPackets;
  }

  /** `run_server_loop`, for as many passes as there are turns of the outside world. */
  method RunServerLoop(ctx: ServerContext, turns: seq<Turn>) returns (ghost events: seq<Event>)
    requires ctx.Valid() && Good(ctx.State()) && Wired(ctx)
    modifies ctx, ctx.clients, ctx.db
    ensures ctx.Valid() && Good(ctx.State()) && Wired(ctx)
    ensures Runs(old(ctx.State()), events) && ctx.State() == Run(old(ctx.State()), events)
    ensures forall fd :: BookIsHandled(ctx.little, old(BooksOf(ctx)), BooksOf(ctx), old(ctx.State()), events, fd)
  {
    hide Good, WiredUp, ServeAll, Plan, WiresAfter, Balanced, BookIsHandled;
    ghost var s, before := ctx.State(), BooksOf(ctx);
    events := [];
    EmptyRunIsHandled(ctx.little, before, s);
    for k := 0 to |turns|
      invariant ctx.Valid() && Good(ctx.State()) && Wired(ctx)
      invariant Runs(s, events) && ctx.State() == Run(s, events)
      invariant forall fd :: BookIsHandled(ctx.little, before, BooksOf(ctx), s, events, fd)
    {
      ghost var now := BooksOf(ctx);
      var more := RunPass(ctx, turns[k]);
      forall fd ensures Runs(s, events + more) && BookIsHandled(ctx.little, before, BooksOf(ctx), s, events + more, fd) {
        HandledInTurn(ctx.little, before, now, BooksOf(ctx), s, events, more, fd);
      }
      RunAppend(s, events, more);
      events := events + more;
    }
  }

  lemma AllKept(ctx: ServerContext, fd: int)
    requires ctx.Valid() && Wired(ctx)
    ensures fd in ctx.streams ==> fd in ctx.heard && fd in ctx.taken && ctx.heard[fd] <= ctx.streams[fd]
                                  && Packets(ctx.little, ctx.heard[fd]) == ctx.taken[fd]
  {
    hide Packets;
  }

  /**
   End to end: whatever the fragmentation and however many other connections came and went, the packets
   handed on for a connection are a prefix of those its peer sent, and less than one packet of what was
   read is missing; so it is for connections that are gone, until their descriptor is used again.
   */
  lemma HandedOnInOrder(ctx: ServerContext, fd: int, sent: seq<seq<byte>>)
    requires ctx.Valid() && Wired(ctx) && Sendable(ctx.little, sent)
    requires fd in ctx.streams && ctx.streams[fd] <= WireOf(ctx.little, sent)
    ensures fd in ctx.taken && fd in ctx.heard && ctx.taken[fd] <= sent
    ensures PACKET_SIZE * |ctx.taken[fd]| <= |ctx.heard[fd]| < PACKET_SIZE * |ctx.taken[fd]| + PACKET_SIZE
  {
    AllKept(ctx, fd);
    hide WiredUp, Codec.Encode, Codec.Decode, Packets;
    PrefixOfWire(ctx.little, sent, ctx.heard[fd]);
  }

  /**
   For a connection that is there: what is missing is what its record has buffered, and its next read
   cannot reject a packet, so a peer that sends only packets of the protocol leaves by its own loss alone.
   */
  lemma GoodPeerStays(ctx: ServerContext, i: nat, sent: seq<seq<byte>>)
    requires ctx.Valid() && Wired(ctx) && i < ctx.clientCount && Sendable(ctx.little, sent)
    requires var fd := ctx.Sessions()[i].fd; fd in ctx.streams ==> ctx.streams[fd] <= WireOf(ctx.little, sent)
    ensures var w := Wires(ctx)[i];
            && w.fd == ctx.Sessions()[i].fd && w.fd in ctx.taken && w.fd in ctx.heard && w.fd in ctx.sockets && IsWhole(w)
            && |ctx.heard[w.fd]| == PACKET_SIZE * |ctx.taken[w.fd]| + w.pipe.offset
            && !ReadingOf(ctx.little, w, ctx.sockets).status.Rejected?
  {
    WiredFifo(ctx, i);
    var w := Wires(ctx)[i];
    hide WiredUp, Codec.Encode, Codec.Decode, PartialRead, Packets;
    NeverRejected(ctx.little, sent, ctx.heard[w.fd], ctx.taken[w.fd], w.pipe, ctx.sockets[w.fd]);
  }
}
