/**
 What one pass of the event loop amounts to: the jobs that the readable connections give the server,
 in the order of the records, each found by its descriptor and not by a moving index.
 */
module Sweep {
  import opened Codec
  import opened Names
  import opened Protocol
  import opened Stream
  import opened Listing
  import opened Server
  import opened Invariants
  import opened Context

  /** A connection with what has been received of its next packet. */
  datatype Wire = Wire(fd: int, pipe: Pipe)

  /** What reading from a connection calls for: closing it, or handling a packet. */
  datatype Job = Drop(fd: int) | Take(fd: int, image: seq<byte>, hashOk: bool)

  /** What the outside world contributes to a pass: readable sockets, a connection to accept, password verdicts. */
  datatype Turn = Turn(ready: set<int>, accepted: int, arrived: Inbound, verdicts: set<int>)

  function WiresOf(sessions: seq<Server.Session>, pipes: seq<Pipe>): (ws: seq<Wire>)
    requires |sessions| == |pipes|
    ensures |ws| == |pipes|
  {
    seq(|pipes|, k requires 0 <= k < |pipes| => Wire(sessions[k].fd, pipes[k]))
  }

  predicate IsWhole(w: Wire) {
    |w.pipe.buffer| == PACKET_SIZE && w.pipe.offset < PACKET_SIZE
  }

  // ------------------------------------------------------------ one connection

  /** The one call of `packet_receive_partial` for a readable connection. */
  function ReadingOf(little: bool, w: Wire, sockets: map<int, Inbound>): Reading
    requires IsWhole(w) && w.fd in sockets
  {
    PartialRead(little, sockets[w.fd], w.pipe.buffer, w.pipe.offset)
  }

  predicate IsServed(w: Wire, ready: set<int>, sockets: map<int, Inbound>) {
    IsWhole(w) && w.fd in ready && w.fd in sockets
  }

  /** At most one job. */
  function JobOf(little: bool, w: Wire, turn: Turn, sockets: map<int, Inbound>): (ts: seq<Job>)
    ensures |ts| <= 1 && forall t :: t in ts ==> t.fd == w.fd
  {
    if !IsServed(w, turn.ready, sockets) then []
    else
      match ReadingOf(little, w, sockets).status
      case Ready(image) => [Take(w.fd, image, w.fd in turn.verdicts)]
      case Pending => []
      case Rejected => [Drop(w.fd)]
      case Lost => [Drop(w.fd)]
  }

  /** The connection afterwards, unless it is gone. */
  function WireAfter(little: bool, w: Wire, turn: Turn, sockets: map<int, Inbound>): (ws: seq<Wire>)
    ensures |ws| <= 1 && forall x :: x in ws ==> x.fd == w.fd
  {
    if !IsServed(w, turn.ready, sockets) then [w]
    else
      var r := ReadingOf(little, w, sockets);
      if r.status.Rejected? || r.status.Lost? then [] else [Wire(w.fd, Pipe(r.buffer, r.offset))]
  }

  /** Its socket afterwards: one call has taken from it what it took, if the connection was readable, and nothing otherwise. */
  function SocketAfter(little: bool, w: Wire, turn: Turn, sockets: map<int, Inbound>): Inbound
    requires w.fd in sockets
  {
    if IsServed(w, turn.ready, sockets) then ReadingOf(little, w, sockets).socket else sockets[w.fd]
  }

  // ------------------------------------------------------------ all connections

  function Plan(little: bool, ws: seq<Wire>, turn: Turn, sockets: map<int, Inbound>): seq<Job> {
    if ws == [] then []
    else Plan(little, ws[..|ws| - 1], turn, sockets) + JobOf(little, ws[|ws| - 1], turn, sockets)
  }

  function WiresAfter(little: bool, ws: seq<Wire>, turn: Turn, sockets: map<int, Inbound>): seq<Wire> {
    if ws == [] then []
    else WiresAfter(little, ws[..|ws| - 1], turn, sockets) + WireAfter(little, ws[|ws| - 1], turn, sockets)
  }

  lemma PlanStep(little: bool, ws: seq<Wire>, k: nat, turn: Turn, sockets: map<int, Inbound>)
    requires k < |ws|
    ensures Plan(little, ws[..k + 1], turn, sockets) == Plan(little, ws[..k], turn, sockets) + JobOf(little, ws[k], turn, sockets)
    ensures WiresAfter(little, ws[..k + 1], turn, sockets) == WiresAfter(little, ws[..k], turn, sockets) + WireAfter(little, ws[k], turn, sockets)
  {
    assert ws[..k + 1][..k] == ws[..k];
  }

  /** A connection that is not readable waits: it gives no job and stays as it is. */
  lemma NewcomerWaits(little: bool, ws: seq<Wire>, w: Wire, turn: Turn, sockets: map<int, Inbound>)
    ensures w.fd !in turn.ready ==> Plan(little, ws + [w], turn, sockets) == Plan(little, ws, turn, sockets)
    ensures w.fd !in turn.ready ==> WiresAfter(little, ws + [w], turn, sockets) == WiresAfter(little, ws, turn, sockets) + [w]
  {}

  predicate FdsDiffer(a: Wire, b: Wire) {
    a.fd != b.fd
  }

  /** The jobs of a pass belong to readable connections of its start, in their order, at most one for each. */
  lemma {:induction false} PlanInOrder(little: bool, ws: seq<Wire>, turn: Turn, sockets: map<int, Inbound>)
    requires Pairwise(FdsDiffer, ws)
    ensures var plan := Plan(little, ws, turn, sockets);
            && (forall t :: t in plan ==> t.fd in turn.ready && exists w :: w in ws && w.fd == t.fd)
            && (forall a, b :: 0 <= a < b < |plan| ==> Precedes(ws, plan[a].fd, plan[b].fd))
  {
    if ws != [] {
      var front, last := ws[..|ws| - 1], ws[|ws| - 1];
      PlanInOrder(little, front, turn, sockets);
      var before, plan := Plan(little, front, turn, sockets), Plan(little, ws, turn, sockets);
      forall a, b | 0 <= a < b < |plan| ensures Precedes(ws, plan[a].fd, plan[b].fd) {
        if b < |before| {
          assert plan[a] == before[a] && plan[b] == before[b] && Precedes(front, before[a].fd, before[b].fd);
          var i, j :| 0 <= i < j < |front| && front[i].fd == plan[a].fd && front[j].fd == plan[b].fd;
          assert ws[i].fd == plan[a].fd && ws[j].fd == plan[b].fd;
        } else {
          assert before[a] in before;
          var w :| w in front && w.fd == plan[a].fd;
          var i :| 0 <= i < |front| && front[i] == w;
          assert ws[i].fd == plan[a].fd && ws[|ws| - 1].fd == plan[b].fd;
        }
      }
    }
  }

  /** What one call of `recv` on a readable connection asks the loop to do. */
  ghost predicate IsAskedBy(little: bool, w: Wire, turn: Turn, sockets: map<int, Inbound>, t: Job)
    requires |w.pipe.buffer| == PACKET_SIZE && w.pipe.offset < PACKET_SIZE && w.fd in sockets
  {
    match PartialRead(little, sockets[w.fd], w.pipe.buffer, w.pipe.offset).status
    case Ready(image) => t == Take(w.fd, image, w.fd in turn.verdicts)
    case Pending => false
    case Rejected => t == Drop(w.fd)
    case Lost => t == Drop(w.fd)
  }

  /** Every readable connection is read, and its job is done if it gives one; there are no other jobs. */
  lemma {:induction false} PlanIsExact(little: bool, ws: seq<Wire>, turn: Turn, sockets: map<int, Inbound>, t: Job)
    requires forall w :: w in ws ==> |w.pipe.buffer| == PACKET_SIZE && w.pipe.offset < PACKET_SIZE && w.fd in sockets
    ensures t in Plan(little, ws, turn, sockets) <==> exists w :: w in ws && w.fd in turn.ready && IsAskedBy(little, w, turn, sockets, t)
  {
    hide PartialRead;
    if ws != [] {
      var front, last := ws[..|ws| - 1], ws[|ws| - 1];
      PlanIsExact(little, front, turn, sockets, t);
      assert forall w :: w in ws <==> w in front || w == last;
      assert t in JobOf(little, last, turn, sockets) <==> last.fd in turn.ready && IsAskedBy(little, last, turn, sockets, t);
      hide JobOf, IsAskedBy;
    }
  }

  /** What is left of a connection: itself if it was not readable, nothing if its read ended it, else its new buffer. */
  ghost predicate IsLeftOf(little: bool, w: Wire, turn: Turn, sockets: map<int, Inbound>, x: Wire)
    requires |w.pipe.buffer| == PACKET_SIZE && w.pipe.offset < PACKET_SIZE && w.fd in sockets
  {
    var r := PartialRead(little, sockets[w.fd], w.pipe.buffer, w.pipe.offset);
    if w.fd !in turn.ready then x == w
    else (r.status.Ready? || r.status.Pending?) && x == Wire(w.fd, Pipe(r.buffer, r.offset))
  }

  /** The connections after a pass are what is left of those before it, in their order. */
  lemma {:induction false} WiresAreExact(little: bool, ws: seq<Wire>, turn: Turn, sockets: map<int, Inbound>, x: Wire)
    requires Pairwise(FdsDiffer, ws)
    requires forall w :: w in ws ==> |w.pipe.buffer| == PACKET_SIZE && w.pipe.offset < PACKET_SIZE && w.fd in sockets
    ensures var after := WiresAfter(little, ws, turn, sockets);
            && (x in after <==> exists w :: w in ws && IsLeftOf(little, w, turn, sockets, x))
            && forall a, b :: 0 <= a < b < |after| ==> Precedes(ws, after[a].fd, after[b].fd)
  {
    hide PartialRead;
    if ws != [] {
      var front, last := ws[..|ws| - 1], ws[|ws| - 1];
      WiresAreExact(little, front, turn, sockets, x);
      assert forall w :: w in ws <==> w in front || w == last;
      var before, after := WiresAfter(little, front, turn, sockets), WiresAfter(little, ws, turn, sockets);
      var rest := WireAfter(little, last, turn, sockets);
      assert x in rest <==> IsLeftOf(little, last, turn, sockets, x);
      hide WireAfter, IsLeftOf;
      forall a, b | 0 <= a < b < |after| ensures Precedes(ws, after[a].fd, after[b].fd) {
        if b < |before| {
          assert Precedes(front, before[a].fd, before[b].fd);
          LongerPrecedes(front, last, before[a].fd, before[b].fd);
        } else {
          LeftHasFd(little, front, turn, sockets, before[a]);
          LastFollows(front, last, before[a].fd);
          assert rest[b - |before|] in rest;
        }
      }
    }
  }

  lemma {:induction false} LeftHasFd(little: bool, ws: seq<Wire>, turn: Turn, sockets: map<int, Inbound>, x: Wire)
    requires x in WiresAfter(little, ws, turn, sockets)
    ensures exists i :: 0 <= i < |ws| && ws[i].fd == x.fd
  {
    hide WireAfter;
    if ws != [] {
      var front, last := ws[..|ws| - 1], ws[|ws| - 1];
      if x in WiresAfter(little, front, turn, sockets) {
        LeftHasFd(little, front, turn, sockets, x);
        var i :| 0 <= i < |front| && front[i].fd == x.fd;
        assert ws[i].fd == x.fd;
      } else {
        assert ws[|ws| - 1].fd == x.fd;
      }
    }
  }

  lemma LongerPrecedes(ws: seq<Wire>, w: Wire, a: int, b: int)
    requires Precedes(ws, a, b)
    ensures Precedes(ws + [w], a, b)
  {
    var i, j :| 0 <= i < j < |ws| && ws[i].fd == a && ws[j].fd == b;
    assert (ws + [w])[i].fd == a && (ws + [w])[j].fd == b;
  }

  lemma LastFollows(ws: seq<Wire>, w: Wire, a: int)
    requires exists i :: 0 <= i < |ws| && ws[i].fd == a
    ensures Precedes(ws + [w], a, w.fd)
  {
    var i :| 0 <= i < |ws| && ws[i].fd == a;
    assert (ws + [w])[i].fd == a && (ws + [w])[|ws|].fd == w.fd;
  }

  /** One descriptor stands before another among the connections. */
  ghost predicate Precedes(ws: seq<Wire>, a: int, b: int) {
    exists i, j :: 0 <= i < j < |ws| && ws[i].fd == a && ws[j].fd == b
  }

  // ------------------------------------------------------------ the jobs as events

  /** The record of a descriptor, or -1. */
  function FdIndex(sessions: seq<Server.Session>, fd: int): (k: int)
    ensures -1 <= k < |sessions| && (k >= 0 ==> sessions[k].fd == fd)
    ensures k < 0 ==> forall i :: 0 <= i < |sessions| ==> sessions[i].fd != fd
  {
    if sessions == [] then -1
    else if sessions[|sessions| - 1].fd == fd then |sessions| - 1
    else FdIndex(sessions[..|sessions| - 1], fd)
  }

  function EventOf(little: bool, s: State, t: Job): (e: Event)
    requires FdIndex(s.sessions, t.fd) >= 0 && (t.Take? ==> |t.image| == PACKET_SIZE)
    ensures Enabled(s, e)
  {
    var k := FdIndex(s.sessions, t.fd);
    match t
    case Drop(_) => Hangup(k)
    case Take(_, image, hashOk) => Request(k, PacketOf(little, image), hashOk)
  }

  /** The job, done on the connection of the descriptor; nothing happens if there is none. */
  function Serve(little: bool, s: State, t: Job): State {
    if FdIndex(s.sessions, t.fd) < 0 || (t.Take? && |t.image| != PACKET_SIZE) then s else Step(s, EventOf(little, s, t))
  }

  function ServeAll(little: bool, s: State, ts: seq<Job>): State {
    if ts == [] then s else Serve(little, ServeAll(little, s, ts[..|ts| - 1]), ts[|ts| - 1])
  }

  lemma ServeOne(little: bool, s: State, ts: seq<Job>, t: Job)
    ensures ServeAll(little, s, ts + [t]) == Serve(little, ServeAll(little, s, ts), t)
  {
    assert (ts + [t])[..|ts|] == ts;
  }

  /** Two runs, one after the other. */
  lemma {:induction false} RunAppend(s: State, a: seq<Event>, b: seq<Event>)
    requires Runs(s, a) && Runs(Run(s, a), b)
    ensures Runs(s, a + b) && Run(s, a + b) == Run(Run(s, a), b)
    decreases |a|
  {
    hide Step, Enabled;
    if a == [] {
      assert a + b == b;
    } else {
      assert (a + b)[0] == a[0] && (a + b)[1..] == a[1..] + b;
      RunAppend(Step(s, a[0]), a[1..], b);
    }
  }

  lemma RunOne(s: State, e: Event)
    requires Enabled(s, e)
    ensures Runs(s, [e]) && Run(s, [e]) == Step(s, e)
  {}

  /** The event that a job is on the connection of its descriptor, if there is one. */
  function EventsOfJob(little: bool, s: State, t: Job): (es: seq<Event>)
    ensures forall e :: e in es ==> Enabled(s, e)
  {
    if FdIndex(s.sessions, t.fd) >= 0 && (t.Take? ==> |t.image| == PACKET_SIZE) then [EventOf(little, s, t)] else []
  }

  /** The events that a list of jobs amounts to. */
  function EventsOf(little: bool, s: State, ts: seq<Job>): seq<Event> {
    if ts == [] then []
    else EventsOf(little, s, ts[..|ts| - 1]) + EventsOfJob(little, ServeAll(little, s, ts[..|ts| - 1]), ts[|ts| - 1])
  }

  lemma JobIsRun(little: bool, s: State, t: Job)
    ensures var es := EventsOfJob(little, s, t); Runs(s, es) && Run(s, es) == Serve(little, s, t)
  {
    hide Step, Enabled, EventOf;
    if EventsOfJob(little, s, t) != [] {
      RunOne(s, EventOf(little, s, t));
    }
  }

  /** A pass is a run: whatever holds in every run of the server holds after every pass. */
  lemma {:induction false} ServeAllIsRun(little: bool, s: State, ts: seq<Job>)
    ensures var es := EventsOf(little, s, ts); Runs(s, es) && Run(s, es) == ServeAll(little, s, ts)
  {
    hide Step, Enabled, EventsOfJob, Serve;
    if ts != [] {
      var front, last := ts[..|ts| - 1], ts[|ts| - 1];
      ServeAllIsRun(little, s, front);
      JobIsRun(little, ServeAll(little, s, front), last);
      RunAppend(s, EventsOf(little, s, front), EventsOfJob(little, ServeAll(little, s, front), last));
    }
  }

  lemma FdIndexIs(sessions: seq<Server.Session>, users: seq<Friends.UserRow>, i: nat)
    requires SessionsOk(sessions, users) && i < |sessions|
    ensures FdIndex(sessions, sessions[i].fd) == i
  {}

  // ------------------------------------------------------------ bytes in, packets out

  /**
   First in, first out on one connection: the packets handed on are those of the bytes read so far,
   and the rest of these bytes is what the record has buffered.
   */
  ghost predicate Fifo(little: bool, heard: seq<byte>, taken: seq<seq<byte>>, pipe: Pipe) {
    && |pipe.buffer| == PACKET_SIZE && pipe.offset < PACKET_SIZE
    && |heard| == PACKET_SIZE * |taken| + pipe.offset
    && Packets(little, heard[..PACKET_SIZE * |taken|]) == taken
    && heard[PACKET_SIZE * |taken|..] == pipe.buffer[..pipe.offset]
  }

  lemma {:induction false} PacketsAppend(little: bool, bytes: seq<byte>, rest: seq<byte>, n: nat)
    requires |bytes| == PACKET_SIZE * n && |Packets(little, bytes)| == n
    ensures Packets(little, bytes + rest) == Packets(little, bytes) + Packets(little, rest)
    decreases n
  {
    hide Codec.Decode, Packets;
    if n == 0 {
      assert bytes + rest == rest && Packets(little, bytes) + Packets(little, rest) == Packets(little, rest);
    } else {
      var block, more := bytes[..PACKET_SIZE], bytes[PACKET_SIZE..];
      assert bytes == block + more;
      assert bytes + rest == block + (more + rest);
      PacketsCons(little, block, more);
      PacketsCons(little, block, more + rest);
      PacketsAppend(little, more, rest, n - 1);
      PrependAppend(Decode(little, block), Packets(little, more), Packets(little, rest));
    }
  }

  lemma PrependAppend(d: Decoded, ps: seq<seq<byte>>, qs: seq<seq<byte>>)
    requires d.Image?
    ensures [d.bytes] + (ps + qs) == ([d.bytes] + ps) + qs
  {}

  lemma FifoPackets(little: bool, heard: seq<byte>, taken: seq<seq<byte>>, pipe: Pipe)
    requires Fifo(little, heard, taken, pipe)
    ensures Packets(little, heard) == taken
  {
    hide Codec.Decode;
    var n := PACKET_SIZE * |taken|;
    assert heard == heard[..n] + heard[n..];
    PacketsAppend(little, heard[..n], heard[n..], |taken|);
  }

  /** What has been read ends within a packet, or with a whole one of unknown type; the packets before it were handed on. */
  ghost predicate Closed(little: bool, heard: seq<byte>, taken: seq<seq<byte>>, rejected: bool) {
    && Packets(little, heard) == taken
    && if rejected then |heard| == PACKET_SIZE * |taken| + PACKET_SIZE
       else PACKET_SIZE * |taken| <= |heard| < PACKET_SIZE * |taken| + PACKET_SIZE
  }

  /** One read keeps the account, the last one included. */
  lemma FifoStep(little: bool, heard: seq<byte>, taken: seq<seq<byte>>, pipe: Pipe, socket: Inbound)
    requires Fifo(little, heard, taken, pipe)
    ensures var r := PartialRead(little, socket, pipe.buffer, pipe.offset);
            && |r.socket.input| <= |socket.input| && socket.input == Taken(socket, r.socket) + r.socket.input
            && match r.status
               case Pending => Fifo(little, heard + Taken(socket, r.socket), taken, Pipe(r.buffer, r.offset))
               case Ready(image) => Fifo(little, heard + Taken(socket, r.socket), taken + [image], Pipe(r.buffer, r.offset))
               case Lost => Closed(little, heard + Taken(socket, r.socket), taken, false)
               case Rejected => Closed(little, heard + Taken(socket, r.socket), taken, true)
  {
    hide Codec.Decode, PartialRead, Packets;
    PartialReadAccounts(little, socket, pipe.buffer, pipe.offset);
    var r := PartialRead(little, socket, pipe.buffer, pipe.offset);
    var n, got := PACKET_SIZE * |taken|, Taken(socket, r.socket);
    var all, bytes := heard + got, pipe.buffer[..pipe.offset] + got;
    assert all == heard[..n] + bytes;
    assert all[..n] == heard[..n] && all[n..] == bytes;
    PacketsAppend(little, heard[..n], bytes, |taken|);
    PacketsShort(little, []);
    assert bytes + [] == bytes && taken + [] == taken;
    match r.status
    case Ready(image) =>
      PacketsCons(little, bytes, []);
      assert [image] + [] == [image];
      assert all[..n + PACKET_SIZE] == all;
      assert r.buffer[..0] == [];
    case Rejected => PacketsCons(little, bytes, []);
    case _ => PacketsShort(little, bytes);
  }

  lemma PacketsShort(little: bool, bytes: seq<byte>)
    requires |bytes| < PACKET_SIZE
    ensures Packets(little, bytes) == []
  {}

  /** A peer that sends only packets of the protocol is never dropped for a bad one. */
  lemma NeverRejected(little: bool, sent: seq<seq<byte>>, heard: seq<byte>, taken: seq<seq<byte>>, pipe: Pipe, socket: Inbound)
    requires Fifo(little, heard, taken, pipe) && Sendable(little, sent) && heard + socket.input <= WireOf(little, sent)
    ensures !PartialRead(little, socket, pipe.buffer, pipe.offset).status.Rejected?
  {
    hide Codec.Decode, Codec.Encode, PartialRead, Packets;
    FifoStep(little, heard, taken, pipe, socket);
    var r := PartialRead(little, socket, pipe.buffer, pipe.offset);
    var all := heard + Taken(socket, r.socket);
    assert all + r.socket.input == heard + socket.input;
    PrefixOfPrefix(all, r.socket.input, WireOf(little, sent));
    PrefixOfWire(little, sent, all);
  }

  lemma PrefixOfPrefix(a: seq<byte>, b: seq<byte>, wire: seq<byte>)
    requires a + b <= wire
    ensures a <= wire
  {}

  /** End to end: what has been handed on is a prefix of what the peer sent, and only part of a packet is missing. */
  lemma FifoDelivers(little: bool, sent: seq<seq<byte>>, heard: seq<byte>, taken: seq<seq<byte>>, pipe: Pipe)
    requires Fifo(little, heard, taken, pipe) && Sendable(little, sent) && heard <= WireOf(little, sent)
    ensures taken <= sent && PACKET_SIZE * |taken| <= |heard| < PACKET_SIZE * |taken| + PACKET_SIZE
  {
    FifoPackets(little, heard, taken, pipe);
    PrefixOfWire(little, sent, heard);
    hide Codec.Decode, Codec.Encode;
  }

  // ------------------------------------------------------------ the account of a pass

  /** The packets that a list of jobs takes from one connection. */
  function ImagesFor(ts: seq<Job>, fd: int): seq<seq<byte>> {
    if ts == [] then []
    else
      var t := ts[|ts| - 1];
      ImagesFor(ts[..|ts| - 1], fd) + if t.Take? && t.fd == fd then [t.image] else []
  }

  lemma {:induction false} ImagesAppend(ts: seq<Job>, us: seq<Job>, fd: int)
    ensures ImagesFor(ts + us, fd) == ImagesFor(ts, fd) + ImagesFor(us, fd)
  {
    if us == [] {
      assert ts + us == ts;
    } else {
      ImagesAppend(ts, us[..|us| - 1], fd);
      assert (ts + us)[..|ts + us| - 1] == ts + us[..|us| - 1];
    }
  }

  lemma ImagesOfJob(little: bool, w: Wire, turn: Turn, sockets: map<int, Inbound>, fd: int)
    ensures ImagesFor(JobOf(little, w, turn, sockets), fd)
            == if fd == w.fd && IsServed(w, turn.ready, sockets) && ReadingOf(little, w, sockets).status.Ready?
               then [ReadingOf(little, w, sockets).status.image] else []
  {
    hide PartialRead;
    var ts := JobOf(little, w, turn, sockets);
    if |ts| == 1 {
      assert ts[..0] == [] && ts == [ts[0]];
    }
  }

  /** The three books of the connections: bytes still to come, bytes read, packets handed on. */
  datatype Books = Books(sockets: map<int, Inbound>, heard: map<int, seq<byte>>, taken: map<int, seq<seq<byte>>>) {
    ghost predicate Has(fd: int) {
      fd in sockets && fd in heard && fd in taken
    }
  }

  /** On one connection, nothing is lost or repeated, and what was handed on are the packets of its jobs. */
  ghost predicate Balanced(before: Books, after: Books, plan: seq<Job>, fd: int) {
    && before.Has(fd) && after.Has(fd)
    && after.heard[fd] + after.sockets[fd].input == before.heard[fd] + before.sockets[fd].input
    && after.taken[fd] == before.taken[fd] + ImagesFor(plan, fd)
  }

  /** The books after one connection was read. */
  function Read(little: bool, books: Books, w: Wire): Books
    requires books.Has(w.fd) && IsWhole(w)
    requires |ReadingOf(little, w, books.sockets).socket.input| <= |books.sockets[w.fd].input|
  {
    var r := ReadingOf(little, w, books.sockets);
    Books(books.sockets[w.fd := r.socket],
          books.heard[w.fd := books.heard[w.fd] + Taken(books.sockets[w.fd], r.socket)],
          books.taken[w.fd := books.taken[w.fd] + if r.status.Ready? then [r.status.image] else []])
  }

  lemma ReadBalances(little: bool, before: Books, books: Books, plan: seq<Job>, w: Wire, turn: Turn, fd: int)
    requires books.Has(w.fd) && before.Has(w.fd) && IsServed(w, turn.ready, before.sockets)
    requires before.sockets[w.fd] == books.sockets[w.fd] && Fifo(little, books.heard[w.fd], books.taken[w.fd], w.pipe)
    requires Balanced(before, books, plan, fd)
    ensures |ReadingOf(little, w, books.sockets).socket.input| <= |books.sockets[w.fd].input|
    ensures Balanced(before, Read(little, books, w), plan + JobOf(little, w, turn, before.sockets), fd)
  {
    hide PartialRead, Fifo, ImagesFor, Taken;
    FifoStep(little, books.heard[w.fd], books.taken[w.fd], w.pipe, books.sockets[w.fd]);
    ImagesAppend(plan, JobOf(little, w, turn, before.sockets), fd);
    ImagesOfJob(little, w, turn, before.sockets, fd);
    if fd == w.fd {
      var r, next := ReadingOf(little, w, books.sockets), Read(little, books, w);
      var k := books.sockets[fd];
      assert (books.heard[fd] + Taken(k, r.socket)) + r.socket.input == books.heard[fd] + k.input;
      assert next.taken[fd] == before.taken[fd] + (ImagesFor(plan, fd) + if r.status.Ready? then [r.status.image] else []);
    } else {
      assert ImagesFor(plan, fd) + [] == ImagesFor(plan, fd);
    }
  }

  /** A job of the connection at place `i` is done at place `i`. */
  lemma ServeAt(little: bool, s: State, i: nat, t: Job)
    requires Good(s) && i < |s.sessions| && s.sessions[i].fd == t.fd && (t.Take? ==> |t.image| == PACKET_SIZE)
    ensures Serve(little, s, t) == match t
                                   case Drop(_) => Disconnect(s, i)
                                   case Take(_, image, hashOk) => Dispatch(s, i, PacketOf(little, image), hashOk)
  {
    FdIndexIs(s.sessions, s.users, i);
    hide Good, Disconnect, Dispatch, PacketOf;
  }
}
