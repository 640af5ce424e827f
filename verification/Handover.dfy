/** What a run of the event loop hands to the handlers: for each connection, the packets read from it and no others. */
module Handover {
  import opened Codec
  import opened Names
  import opened Protocol
  import Store
  import opened Stream
  import opened Listing
  import opened Server
  import opened Context
  import opened Sweep

  // ------------------------------------------------------------ the requests of a run

  /** The packets handled for a connection, anew whenever its descriptor is handed out. */
  function AlsoHandled(s: State, e: Event, fd: int, ps: seq<Packet>): seq<Packet>
    requires Enabled(s, e)
  {
    match e
    case Accept(x) => if x == fd && |s.sessions| < MAX_CLIENTS then [] else ps
    case Hangup(_) => ps
    case Request(i, p, _) => if s.sessions[i].fd == fd then ps + [p] else ps
  }

  function HandledOn(s: State, es: seq<Event>, fd: int, ps: seq<Packet>): seq<Packet>
    requires Runs(s, es)
    decreases |es|
  {
    if es == [] then ps else HandledOn(Step(s, es[0]), es[1..], fd, AlsoHandled(s, es[0], fd, ps))
  }

  lemma {:induction false} HandledAppend(s: State, a: seq<Event>, b: seq<Event>, fd: int, ps: seq<Packet>)
    requires Runs(s, a) && Runs(Run(s, a), b)
    ensures Runs(s, a + b) && Run(s, a + b) == Run(Run(s, a), b)
    ensures HandledOn(s, a + b, fd, ps) == HandledOn(Run(s, a), b, fd, HandledOn(s, a, fd, ps))
    decreases |a|
  {
    hide Step, Enabled, AlsoHandled;
    RunAppend(s, a, b);
    if a == [] {
      assert a + b == b;
    } else {
      assert (a + b)[0] == a[0] && (a + b)[1..] == a[1..] + b;
      HandledAppend(Step(s, a[0]), a[1..], b, fd, AlsoHandled(s, a[0], fd, ps));
    }
  }

  lemma HandledOne(s: State, e: Event, fd: int, ps: seq<Packet>)
    requires Enabled(s, e)
    ensures Runs(s, [e]) && Run(s, [e]) == Step(s, e) && HandledOn(s, [e], fd, ps) == AlsoHandled(s, e, fd, ps)
  {
    hide Step, Enabled, AlsoHandled;
  }

  // ------------------------------------------------------------ images as packets

  /** The packets that images stand for. */
  function AsPackets(little: bool, images: seq<seq<byte>>): seq<Packet> {
    if images == [] then []
    else
      var last := images[|images| - 1];
      AsPackets(little, images[..|images| - 1]) + if |last| == PACKET_SIZE then [PacketOf(little, last)] else []
  }

  lemma {:induction false} AsPacketsAppend(little: bool, a: seq<seq<byte>>, b: seq<seq<byte>>)
    ensures AsPackets(little, a + b) == AsPackets(little, a) + AsPackets(little, b)
  {
    hide PacketOf;
    if b == [] {
      assert a + b == a;
    } else {
      assert (a + b)[..|a + b| - 1] == a + b[..|b| - 1];
      AsPacketsAppend(little, a, b[..|b| - 1]);
    }
  }

  lemma {:induction false} AsPacketsOf(little: bool, images: seq<seq<byte>>, ps: seq<Packet>)
    requires |images| == |ps| && forall k :: 0 <= k < |ps| ==> |images[k]| == PACKET_SIZE && PacketOf(little, images[k]) == ps[k]
    ensures AsPackets(little, images) == ps
  {
    hide PacketOf;
    if images != [] {
      AsPacketsOf(little, images[..|images| - 1], ps[..|ps| - 1]);
      assert ps == ps[..|ps| - 1] + [ps[|ps| - 1]];
    }
  }

  // ------------------------------------------------------------ the jobs of a pass

  predicate HasFd(s: State, fd: int) {
    exists k :: 0 <= k < |s.sessions| && s.sessions[k].fd == fd
  }

  lemma FdIndexFinds(s: State, fd: int)
    requires HasFd(s, fd)
    ensures FdIndex(s.sessions, fd) >= 0
  {}

  /** Handling a packet keeps the records where they are. */
  lemma DispatchKeepsFds(s: State, i: nat, p: Packet, hashOk: bool)
    requires i < |s.sessions|
    ensures var s' := Dispatch(s, i, p, hashOk);
            |s'.sessions| == |s.sessions| && forall k :: 0 <= k < |s.sessions| ==> s'.sessions[k].fd == s.sessions[k].fd
  {
    hide HandleFriend, NotifyJoined, NotifyUsers, JoinedServers, Store.Perform, NotifyMembers;
    match p.payload
    case Auth(_, _, _, _) => AuthKeepsFds(s, i, p, hashOk);
    case Social(_, _, _, _, _, _) =>
      if IsFriendAction(p.payload.action) {
        FriendKeepsFds(s, i, p.payload.action, p.payload.name);
      }
    case _ =>
  }

  lemma AuthKeepsFds(s: State, i: nat, p: Packet, hashOk: bool)
    requires i < |s.sessions| && p.payload.Auth?
    ensures var s' := HandleAuth(s, i, p, hashOk);
            |s'.sessions| == |s.sessions| && forall k :: 0 <= k < |s.sessions| ==> s'.sessions[k].fd == s.sessions[k].fd
  {
    hide NotifyJoined, NotifyUsers, JoinedServers, RevokeOuts;
  }

  lemma FriendKeepsFds(s: State, i: nat, action: int, name: string)
    requires i < |s.sessions| && IsFriendAction(action)
    ensures HandleFriend(s, i, action, name).sessions == s.sessions
  {}

  lemma DisconnectSessions(s: State, i: nat)
    requires i < |s.sessions|
    ensures Disconnect(s, i).sessions == s.sessions[..i] + s.sessions[i + 1..]
  {}

  /** A job on one connection leaves every other one there. */
  lemma ServeKeepsOthers(little: bool, s: State, t: Job, fd: int)
    requires HasFd(s, fd) && fd != t.fd
    ensures HasFd(Serve(little, s, t), fd)
  {
    hide PacketOf, Dispatch, Announce;
    var i := FdIndex(s.sessions, t.fd);
    var k :| 0 <= k < |s.sessions| && s.sessions[k].fd == fd;
    if i >= 0 && (t.Take? ==> |t.image| == PACKET_SIZE) {
      var s' := Serve(little, s, t);
      match t
      case Take(_, image, hashOk) =>
        DispatchKeepsFds(s, i, PacketOf(little, image), hashOk);
        assert s'.sessions[k].fd == fd;
      case Drop(_) =>
        DisconnectSessions(s, i);
        assert s'.sessions[if k < i then k else k - 1].fd == fd;
    }
  }

  /** A job on a connection that is there hands on the packet that it carries. */
  lemma JobIsHandled(little: bool, s: State, t: Job, fd: int, ps: seq<Packet>)
    requires HasFd(s, t.fd)
    ensures Runs(s, EventsOfJob(little, s, t)) && HandledOn(s, EventsOfJob(little, s, t), fd, ps) == ps + AsPackets(little, ImagesFor([t], fd))
  {
    hide PacketOf, Step;
    FdIndexFinds(s, t.fd);
    JobIsRun(little, s, t);
    assert [t][..0] == [];
    if t.Take? ==> |t.image| == PACKET_SIZE {
      HandledOne(s, EventOf(little, s, t), fd, ps);
    }
    assert t.Take? ==> [t.image][..0] == [];
  }

  /** One more job after others. */
  lemma OneMoreJob(little: bool, s: State, ts: seq<Job>, t: Job, fd: int, ps: seq<Packet>)
    requires HasFd(ServeAll(little, s, ts), t.fd) && Runs(s, EventsOf(little, s, ts))
    ensures Runs(s, EventsOf(little, s, ts + [t]))
    ensures HandledOn(s, EventsOf(little, s, ts + [t]), fd, ps) == HandledOn(s, EventsOf(little, s, ts), fd, ps) + AsPackets(little, ImagesFor([t], fd))
  {
    var s1, es := ServeAll(little, s, ts), EventsOf(little, s, ts);
    assert (ts + [t])[..|ts|] == ts;
    assert EventsOf(little, s, ts + [t]) == es + EventsOfJob(little, s1, t) by { hide EventsOfJob, ServeAll; }
    hide HandledOn, AsPackets, ImagesFor, ServeAll, EventsOf, EventsOfJob, Runs, Run, HasFd;
    ServeAllIsRun(little, s, ts);
    JobIsHandled(little, s1, t, fd, HandledOn(s, es, fd, ps));
    HandledAppend(s, es, EventsOfJob(little, s1, t), fd, ps);
  }

  /** A pass leaves every connection there that it does not read from. */
  lemma {:induction false} OthersStay(little: bool, s: State, ws: seq<Wire>, turn: Turn, sockets: map<int, Inbound>, fd: int)
    requires HasFd(s, fd) && forall w :: w in ws ==> w.fd != fd
    ensures HasFd(ServeAll(little, s, Plan(little, ws, turn, sockets)), fd)
  {
    hide JobOf, HasFd, Serve;
    if ws != [] {
      var front, last := ws[..|ws| - 1], ws[|ws| - 1];
      var before, jobs := Plan(little, front, turn, sockets), JobOf(little, last, turn, sockets);
      OthersStay(little, s, front, turn, sockets, fd);
      if jobs == [] {
        assert before + jobs == before;
      } else {
        assert jobs == [jobs[0]] && jobs[0] in jobs;
        ServeOne(little, s, before, jobs[0]);
        ServeKeepsOthers(little, ServeAll(little, s, before), jobs[0], fd);
      }
    }
  }

  /** The jobs of a pass hand on, for each connection, the packets that they carry for it. */
  lemma {:induction false} PlanIsHandled(little: bool, s: State, ws: seq<Wire>, turn: Turn, sockets: map<int, Inbound>, fd: int, ps: seq<Packet>)
    requires Pairwise(FdsDiffer, ws) && forall w :: w in ws ==> HasFd(s, w.fd)
    ensures var plan := Plan(little, ws, turn, sockets);
            Runs(s, EventsOf(little, s, plan)) && HandledOn(s, EventsOf(little, s, plan), fd, ps) == ps + AsPackets(little, ImagesFor(plan, fd))
  {
    hide JobOf, Step, Enabled, HasFd, EventsOf, ServeAll, Runs, HandledOn, AsPackets, ImagesFor;
    if ws == [] {
      NothingHandled(little, s, fd, ps);
    } else {
      var front, last := ws[..|ws| - 1], ws[|ws| - 1];
      var before, jobs := Plan(little, front, turn, sockets), JobOf(little, last, turn, sockets);
      PlanIsHandled(little, s, front, turn, sockets, fd, ps);
      assert last in ws;
      if jobs == [] {
        assert before + jobs == before;
      } else {
        assert jobs == [jobs[0]] && jobs[0] in jobs;
        OthersStay(little, s, front, turn, sockets, last.fd);
        OneMoreJob(little, s, before, jobs[0], fd, ps);
        ImagesAppend(before, jobs, fd);
        AsPacketsAppend(little, ImagesFor(before, fd), ImagesFor(jobs, fd));
      }
    }
  }

  lemma NothingHandled(little: bool, s: State, fd: int, ps: seq<Packet>)
    ensures EventsOf(little, s, []) == [] && Runs(s, []) && HandledOn(s, [], fd, ps) == ps + AsPackets(little, ImagesFor([], fd))
  {
    hide Step;
  }

  // ------------------------------------------------------------ the book of packets handed on

  /** What the book holds for a descriptor. */
  function BookFor(taken: map<int, seq<seq<byte>>>, fd: int): seq<seq<byte>> {
    if fd in taken then taken[fd] else []
  }

  /** One read enters the packet of its job, and no other. */
  lemma ReadEnters(little: bool, books: Books, w: Wire, turn: Turn, sockets: map<int, Inbound>, fd: int)
    requires books.Has(w.fd) && IsServed(w, turn.ready, sockets) && sockets[w.fd] == books.sockets[w.fd]
    requires |ReadingOf(little, w, books.sockets).socket.input| <= |books.sockets[w.fd].input|
    ensures BookFor(Read(little, books, w).taken, fd) == BookFor(books.taken, fd) + ImagesFor(JobOf(little, w, turn, sockets), fd)
  {
    hide PartialRead, Taken, ImagesFor, JobOf;
    ImagesOfJob(little, w, turn, sockets, fd);
  }

  /** The packets of a list of jobs have been entered, each for its connection. */
  ghost predicate Entered(before: Books, after: Books, plan: seq<Job>) {
    forall fd :: BookFor(after.taken, fd) == BookFor(before.taken, fd) + ImagesFor(plan, fd)
  }

  lemma NothingEntered(books: Books)
    ensures Entered(books, books, [])
  {
    forall fd ensures BookFor(books.taken, fd) == BookFor(books.taken, fd) + ImagesFor([], fd) {}
  }

  lemma OneEntered(little: bool, before: Books, books: Books, books': Books, plan: seq<Job>, w: Wire, turn: Turn, sockets: map<int, Inbound>)
    requires books.Has(w.fd) && IsServed(w, turn.ready, sockets) && sockets[w.fd] == books.sockets[w.fd]
    requires |ReadingOf(little, w, books.sockets).socket.input| <= |books.sockets[w.fd].input|
    requires Entered(before, books, plan) && books'.taken == Read(little, books, w).taken
    ensures Entered(before, books', plan + JobOf(little, w, turn, sockets))
  {
    hide PartialRead, Taken, ImagesFor, JobOf, BookFor, IsServed;
    var jobs := JobOf(little, w, turn, sockets);
    forall fd ensures BookFor(books'.taken, fd) == BookFor(before.taken, fd) + ImagesFor(plan + jobs, fd) {
      ReadEnters(little, books, w, turn, sockets, fd);
      ImagesAppend(plan, jobs, fd);
    }
  }

  /** The packets of the book are those handled in the events, beginning with those of an earlier book. */
  ghost predicate BookIsHandled(little: bool, before: Books, after: Books, s: State, es: seq<Event>, fd: int)
    requires Runs(s, es)
  {
    AsPackets(little, BookFor(after.taken, fd)) == HandledOn(s, es, fd, AsPackets(little, BookFor(before.taken, fd)))
  }

  lemma HandledInTurn(little: bool, a: Books, b: Books, c: Books, s: State, es: seq<Event>, more: seq<Event>, fd: int)
    requires Runs(s, es) && Runs(Run(s, es), more)
    requires BookIsHandled(little, a, b, s, es, fd) && BookIsHandled(little, b, c, Run(s, es), more, fd)
    ensures Runs(s, es + more) && BookIsHandled(little, a, c, s, es + more, fd)
  {
    hide Runs, Run, HandledOn, AsPackets, BookFor;
    HandledAppend(s, es, more, fd, AsPackets(little, BookFor(a.taken, fd)));
  }

  lemma PassIsHandled(little: bool, before: Books, after: Books, s: State, ws: seq<Wire>, turn: Turn, sockets: map<int, Inbound>, fd: int)
    requires Pairwise(FdsDiffer, ws) && (forall w :: w in ws ==> HasFd(s, w.fd)) && Entered(before, after, Plan(little, ws, turn, sockets))
    ensures var es := EventsOf(little, s, Plan(little, ws, turn, sockets)); Runs(s, es) && BookIsHandled(little, before, after, s, es, fd)
  {
    hide Plan, EventsOf, Runs, HandledOn, AsPackets, BookFor, HasFd, ImagesFor;
    var plan := Plan(little, ws, turn, sockets);
    PlanIsHandled(little, s, ws, turn, sockets, fd, AsPackets(little, BookFor(before.taken, fd)));
    AsPacketsAppend(little, BookFor(before.taken, fd), ImagesFor(plan, fd));
  }
}
