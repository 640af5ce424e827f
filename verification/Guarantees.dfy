/** The event loop and the replicated views together: a server that starts on any good database and runs. */
module Guarantees {
  import opened Codec
  import opened Names
  import opened Protocol
  import opened Friends
  import Store
  import opened Stream
  import opened Marshal
  import opened ClientView
  import opened ClientUi
  import opened Server
  import opened Invariants
  import opened Traffic
  import opened Presence
  import opened FriendView
  import opened OwnName
  import opened LoginForm
  import opened Database
  import opened Context
  import opened Sweep
  import opened Handover
  import opened EventLoop

  lemma EmptyIsWired(ctx: ServerContext)
    requires ctx.Valid() && ctx.clientCount == 0 && ctx.masterSet == {ctx.serverFd} && ctx.maxFd == ctx.serverFd && ctx.streams == map[]
    ensures Wired(ctx)
  {}

  lemma NobodyLive(s: State, fd: int)
    requires s.sessions == [] && s.sent == []
    ensures BookOk(s, fd, [])
  {}

  /** The requests handled for a connection are the packets that the loop took from it. */
  ghost predicate HandledIsTaken(ctx: ServerContext, s: State, events: seq<Event>, fd: int)
    reads ctx
    requires Runs(s, events)
  {
    HandledOn(s, events, fd, []) == AsPackets(ctx.little, BookFor(ctx.taken, fd))
  }

  lemma BlankBook(little: bool, books: Books, fd: int)
    requires books.taken == map[]
    ensures AsPackets(little, BookFor(books.taken, fd)) == []
  {}

  /**
   The program: an empty context on an open database, then the event loop for any turns of the outside
   world.  Afterwards the constraints of the database hold, every user has at most one live session, no
   byte of a connection is lost, every client that is logged in shows the truth about all users, and every
   login has had its answer, the one in force being that of the user whom the connection is logged in as;
   and the requests that were handled are the packets taken from the connections, in order.
   */
  method ServeClients(db: DbContext, serverFd: int, little: bool, turns: seq<Turn>)
    returns (ctx: ServerContext, ghost events: seq<Event>)
    requires DatabaseOk(Server.State([], db.users, db.friends, db.Tables(), db.dms, []))
    modifies db
    ensures ctx.Valid() && Wired(ctx) && Good(ctx.State()) && PresenceOk(ctx.State())
    ensures var s := Server.State([], old(db.users), old(db.friends), old(db.Tables()), old(db.dms), []);
            && Runs(s, events) && ctx.State() == Run(s, events)
            && (forall fd :: BookOk(ctx.State(), fd, Logins(s, events, fd, [])))
            && forall fd :: HandledIsTaken(ctx, s, events, fd)
  {
    hide DatabaseOk, PresenceOk, WiredUp, BookOk, Logins, HandledOn, AsPackets;
    ctx := new ServerContext(db, serverFd, little);
    EmptyIsWired(ctx);
    assert ctx.Sessions() == [];
    ghost var s, start := ctx.State(), BooksOf(ctx);
    events := RunServerLoop(ctx, turns);
    PresenceFromTheStart(s, events);
    forall fd ensures BookOk(Run(s, events), fd, Logins(s, events, fd, [])) {
      NobodyLive(s, fd);
      LoginsAreAnswered(s, events, fd, []);
    }
    forall fd ensures HandledIsTaken(ctx, s, events, fd) {
      assert BookIsHandled(little, start, BooksOf(ctx), s, events, fd);
      BlankBook(little, start, fd);
    }
  }

  /**
   From the peer to the handlers: if a peer on any host puts the packets of `ls` on its connection, then
   the requests handled for the connection are exactly the first of these packets, as many as have been
   read whole.  Other connections, their requests and the cuts between reads make no difference.
   */
  lemma PeerIsHandled(ctx: ServerContext, s: State, events: seq<Event>, fd: int, from: bool, ls: seq<Letter>)
    requires ctx.Valid() && Wired(ctx) && Runs(s, events) && HandledIsTaken(ctx, s, events, fd)
    requires fd in ctx.streams && (forall l :: l in ls ==> l.Fits()) && ctx.streams[fd] <= WireOf(from, Images(from, ls))
    ensures fd in ctx.heard
            && var n := |ctx.heard[fd]| / PACKET_SIZE;
               n <= |ls| && HandledOn(s, events, fd, []) == Map((l: Letter) => l.packet, ls[..n])
  {
    hide WiredUp, HandledOn, Runs, AsPackets, WireOf, ImageOf, PacketOf, Encode;
    var images := Images(ctx.little, ls);
    SameWire(ls);
    ImagesAreSendable(ctx.little, ls);
    HandedOnInOrder(ctx, fd, images);
    var n := |ctx.taken[fd]|;
    assert n == |ctx.heard[fd]| / PACKET_SIZE;
    forall i | 0 <= i < n ensures |ctx.taken[fd][i]| == PACKET_SIZE && PacketOf(ctx.little, ctx.taken[fd][i]) == ls[i].packet {
      assert ctx.taken[fd][i] == images[i] && ls[i] in ls;
      ImageReadsBack(ctx.little, ls[i].packet, ls[i].listId, ls[i].timestamp);
    }
    AsPacketsOf(ctx.little, ctx.taken[fd], Map((l: Letter) => l.packet, ls[..n]));
  }

  /** What the arrays of a client hold once everything sent to it has arrived. */
  lemma ArraysShowTruth(s: State, i: nat, xs: seq<Input>)
    requires PresenceOk(s) && i < |s.sessions| && s.sessions[i].authenticated && Arrivals(xs) == PacketsOn(s.sent, s.sessions[i].fd)
    ensures Coherent(Client(xs).users, Truth(s.sessions, s.users))
  {
    hide Truth, Coherent, SameEntry, ViewOf, PacketsOn, Arrivals;
    assert s.sessions[i] in s.sessions;
    ClientShowsView(xs, s.sent, s.sessions[i].fd);
  }

  /**
   The client program on the other end of connection `i`: its arrays, updated in place by whatever happened to
   it, hold the true user list, and its own user's name if and only if its form held the submitted name until
   the answer came.  An index leaves its array exactly if more than 16 logins were answered OK.
   */
  method ClientShowsTruth(s: State, i: nat, xs: seq<Input>, ghost book: seq<string>) returns (ui: Ui, overrun: bool)
    requires PresenceOk(s) && i < |s.sessions| && s.sessions[i].authenticated
    requires BookOk(s, s.sessions[i].fd, book) && IsHistory(xs, s, s.sessions[i].fd, book)
    ensures ui.Valid() && overrun == (Heard(xs).welcomes > MAX_USERS)
    ensures !overrun ==>
              && Coherent(ui.allUsers[..ui.allUserCount], Truth(s.sessions, s.users))
              && 0 <= ui.currentUser < ui.userCount
              && (ui.users[ui.currentUser] == Truncated(NameOf(s.users, s.sessions[i].id), NAME_LEN) <==> FormHeld(xs))
  {
    hide PresenceOk, Truth, Coherent, Blank, NameOf, Client, Heard, Submitted, BookOk, FormHeld, OnTime, PacketsOn, Arrivals;
    var c := s.sessions[i];
    ui := new Ui();
    var sent;
    overrun, sent := ui.TakeInputs(xs);
    ArraysShowTruth(s, i, xs);
    assert LiveAs(s, c.fd, c.id);
    OwnNameIfHeld(s, c.fd, c.id, book, xs);
    SomebodyInForce(s, c.fd, c.id, book, xs);
    assert !overrun ==> ui.View().users == ui.allUsers[..ui.allUserCount];
  }

  /** A client whose connection is logged in has a name in use. */
  lemma SomebodyInForce(s: State, fd: int, user: int, book: seq<string>, xs: seq<Input>)
    requires BookOk(s, fd, book) && LiveAs(s, fd, user) && Arrivals(xs) == PacketsOn(s.sent, fd)
    ensures Client(xs).current >= 0
  {
    hide Client, LiveAs, NameOf;
    MeIsForm(xs);
  }
}
