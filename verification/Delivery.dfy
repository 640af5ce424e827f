/** Who is sent what: the packets that the pushes of the server put on each connection. */
module Delivery {
  import opened Names
  import opened Protocol
  import opened Friends
  import Store
  import opened Rules
  import opened Listing
  import opened Server
  import opened Invariants
  import opened Traffic
  import opened Lifecycle
  import opened Frames

  // ------------------------------------------------------------ something for every connection

  /** Each of the first `n` connections is given its packets. */
  function FanOut(sessions: seq<Session>, give: Session -> seq<Packet>, n: nat): seq<Out>
    requires n <= |sessions|
  {
    if n == 0 then [] else FanOut(sessions, give, n - 1) + Into(sessions[n - 1].fd, give(sessions[n - 1]))
  }

  lemma {:induction false} FanOutReaches(sessions: seq<Session>, users: seq<UserRow>, give: Session -> seq<Packet>, n: nat, k: nat)
    requires SessionsOk(sessions, users) && n <= |sessions| && k < |sessions|
    ensures PacketsFor(FanOut(sessions, give, n), sessions[k].fd) == if k < n then give(sessions[k]) else []
  {
    hide PacketsFor, Into;
    if n == 0 {
      PacketsForOthers([], sessions[k].fd);
    } else {
      var fd, outs := sessions[k].fd, Into(sessions[n - 1].fd, give(sessions[n - 1]));
      FanOutReaches(sessions, users, give, n - 1, k);
      PacketsForAppend(FanOut(sessions, give, n - 1), outs, fd);
      if k == n - 1 {
        PacketsForInto(fd, give(sessions[k]));
      } else {
        assert SessionsDiffer(sessions[if k < n - 1 then k else n - 1], sessions[if k < n - 1 then n - 1 else k]);
        IntoFd(sessions[n - 1].fd, give(sessions[n - 1]));
        PacketsForOthers(outs, fd);
      }
    }
  }

  lemma {:induction false} FanOutElsewhere(sessions: seq<Session>, give: Session -> seq<Packet>, n: nat, fd: int)
    requires n <= |sessions| && forall k :: 0 <= k < |sessions| ==> sessions[k].fd != fd
    ensures PacketsFor(FanOut(sessions, give, n), fd) == []
  {
    hide PacketsFor, Into;
    if n == 0 {
      PacketsForOthers([], fd);
    } else {
      var outs := Into(sessions[n - 1].fd, give(sessions[n - 1]));
      FanOutElsewhere(sessions, give, n - 1, fd);
      PacketsForAppend(FanOut(sessions, give, n - 1), outs, fd);
      IntoFd(sessions[n - 1].fd, give(sessions[n - 1]));
      PacketsForOthers(outs, fd);
    }
  }

  /** A packet for those connections that `takes` picks. */
  function Given(takes: bool, p: Packet): seq<Packet> {
    if takes then [p] else []
  }

  lemma IntoOne(fd: int, p: Packet)
    ensures Into(fd, [p]) == [Sent(fd, p)] && Into(fd, []) == []
  {}

  lemma {:induction false} StatusFansOut(sessions: seq<Session>, p: Packet, n: nat)
    requires n <= |sessions|
    ensures ToSessions(sessions, p, n) == FanOut(sessions, (c: Session) => Given(c.fd > 0 && c.authenticated, p), n)
  {
    hide Into;
    if n > 0 {
      StatusFansOut(sessions, p, n - 1);
      IntoOne(sessions[n - 1].fd, p);
    }
  }

  lemma {:induction false} MessageFansOut(sessions: seq<Session>, p: Packet, n: nat)
    requires n <= |sessions|
    ensures Broadcast(sessions, p, n) == FanOut(sessions, (c: Session) => Given(c.fd > 0, p), n)
  {
    hide Into;
    if n > 0 {
      MessageFansOut(sessions, p, n - 1);
      IntoOne(sessions[n - 1].fd, p);
    }
  }

  lemma {:induction false} FarewellsFanOut(sessions: seq<Session>, fd: int, user: int, name: string, n: nat)
    requires n <= |sessions|
    ensures RevokeOuts(sessions, fd, user, name, n)
            == FanOut(sessions, (c: Session) => Given(c.fd > 0 && c.fd != fd && c.authenticated && c.id == user, AuthReply(AUTH_LOGOUT, RESP_OK, name)), n)
  {
    hide Into, AuthReply;
    if n > 0 {
      FarewellsFanOut(sessions, fd, user, name, n - 1);
      IntoOne(sessions[n - 1].fd, AuthReply(AUTH_LOGOUT, RESP_OK, name));
    }
  }

  /** A stream for those connections that `takes` picks. */
  function Streamed(takes: bool, ps: seq<Packet>): seq<Packet> {
    if takes then ps else []
  }

  lemma NothingInto(fd: int)
    ensures Into(fd, []) == []
  {}

  lemma {:induction false} UsersFanOut(sessions: seq<Session>, users: seq<UserRow>, n: nat)
    requires n <= |sessions|
    ensures NotifyUsers(sessions, users, n)
            == FanOut(sessions, (c: Session) => Streamed(c.fd > 0 && c.authenticated, UserListStream(sessions, users)), n)
  {
    hide Into, UserListStream;
    if n > 0 {
      UsersFanOut(sessions, users, n - 1);
      NothingInto(sessions[n - 1].fd);
    }
  }

  lemma {:induction false} MembersFanOut(s: State, server: int, n: nat)
    requires n <= |s.sessions|
    ensures NotifyMembers(s, server, n)
            == FanOut(s.sessions, (c: Session) => Streamed(c.fd > 0 && c.authenticated && c.currentServer == server, MemberStream(s, server)), n)
  {
    hide Into, MemberStream;
    if n > 0 {
      MembersFanOut(s, server, n - 1);
      NothingInto(s.sessions[n - 1].fd);
    }
  }

  // ------------------------------------------------------------ what each connection gets

  /** Connections have positive descriptors. */
  lemma PositiveFd(sessions: seq<Session>, users: seq<UserRow>, k: nat)
    requires SessionsOk(sessions, users) && k < |sessions|
    ensures sessions[k].fd > 0
  {
    assert sessions[k] in sessions;
  }

  lemma UsersReach(s: State, k: nat)
    requires SessionsOk(s.sessions, s.users) && k < |s.sessions|
    ensures PacketsFor(NotifyUsers(s.sessions, s.users, |s.sessions|), s.sessions[k].fd)
            == if s.sessions[k].authenticated then UserListStream(s.sessions, s.users) else []
  {
    hide UserListStream, PacketsFor, FanOut, SessionsOk;
    PositiveFd(s.sessions, s.users, k);
    UsersFanOut(s.sessions, s.users, |s.sessions|);
    FanOutReaches(s.sessions, s.users, (c: Session) => Streamed(c.fd > 0 && c.authenticated, UserListStream(s.sessions, s.users)), |s.sessions|, k);
  }

  lemma MembersReach(s: State, server: int, k: nat)
    requires SessionsOk(s.sessions, s.users) && k < |s.sessions|
    ensures PacketsFor(NotifyMembers(s, server, |s.sessions|), s.sessions[k].fd)
            == if s.sessions[k].authenticated && s.sessions[k].currentServer == server then MemberStream(s, server) else []
  {
    hide MemberStream, PacketsFor, FanOut, SessionsOk;
    PositiveFd(s.sessions, s.users, k);
    MembersFanOut(s, server, |s.sessions|);
    FanOutReaches(s.sessions, s.users,
                  (c: Session) => Streamed(c.fd > 0 && c.authenticated && c.currentServer == server, MemberStream(s, server)), |s.sessions|, k);
  }

  /** The server that the client looks at is among the first `n` of the list. */
  predicate ShowsOneOf(c: Session, servers: seq<Item>, n: nat)
    requires n <= |servers|
  {
    c.authenticated && exists j :: 0 <= j < n && servers[j].id == c.currentServer
  }

  ghost predicate DistinctIds(servers: seq<Item>) {
    forall i, j :: 0 <= i < j < |servers| ==> servers[i].id != servers[j].id
  }

  lemma {:induction false} JoinedReach(s: State, servers: seq<Item>, n: nat, k: nat)
    requires SessionsOk(s.sessions, s.users) && k < |s.sessions| && n <= |servers| && DistinctIds(servers)
    ensures PacketsFor(NotifyJoined(s, servers, n), s.sessions[k].fd)
            == if ShowsOneOf(s.sessions[k], servers, n) then MemberStream(s, s.sessions[k].currentServer) else []
  {
    hide PacketsFor, MemberStream, SessionsOk, NotifyMembers;
    var c := s.sessions[k];
    if n == 0 {
      PacketsForOthers([], c.fd);
    } else {
      var server := servers[n - 1].id;
      JoinedReach(s, servers, n - 1, k);
      MembersReach(s, server, k);
      PacketsForAppend(NotifyJoined(s, servers, n - 1), NotifyMembers(s, server, |s.sessions|), c.fd);
    }
  }

  lemma JoinedIdsDiffer(t: Store.Tables, users: seq<int>, user: int)
    requires Store.TablesOk(t, users)
    ensures DistinctIds(JoinedServers(t, user))
  {
    var keep := (x: Store.ServerRow) => Store.IsMember(t, x.id, user);
    var kept := Filter(keep, t.servers);
    var items := Map((x: Store.ServerRow) => ServerItem(t, x), kept);
    FilterKeepsPairwise(Store.ServersDiffer, keep, t.servers);
    forall i, j | 0 <= i < j < |items| ensures items[i].id != items[j].id {
      assert Store.ServersDiffer(kept[i], kept[j]);
    }
    SortByPermutes((i: Item) => i.name, items);
    hide Filter, SortBy, Store.IsMember;
    PairwisePermutes((a: Item, b: Item) => a.id != b.id, items, SortBy((i: Item) => i.name, items));
    var r := JoinedServers(t, user);
    assert r == SortBy((i: Item) => i.name, items);
  }

  /** The client looks at a server that the user is a member of. */
  ghost predicate LooksAtServerOf(c: Session, t: Store.Tables, user: int) {
    c.authenticated && HasMember(t, c.currentServer, user)
  }

  lemma ShowsJoined(t: Store.Tables, users: seq<int>, user: int, c: Session)
    requires Store.TablesOk(t, users)
    ensures ShowsOneOf(c, JoinedServers(t, user), |JoinedServers(t, user)|) <==> LooksAtServerOf(c, t, user)
  {
    var r := JoinedServers(t, user);
    MembersServerIsThere(t, users, c.currentServer, user);
    hide JoinedServers, Store.TablesOk, Size, SortedBy, HasMember;
    if ShowsOneOf(c, r, |r|) {
      var j :| 0 <= j < |r| && r[j].id == c.currentServer;
      JoinedServersAreExact(t, users, user, r[j]);
    }
    if LooksAtServerOf(c, t, user) {
      var x :| x in t.servers && x.id == c.currentServer;
      JoinedServersAreExact(t, users, user, Item(x.id, x.name, Size(t, x.id)));
    }
  }

  lemma MembersServerIsThere(t: Store.Tables, users: seq<int>, server: int, user: int)
    requires Store.TablesOk(t, users)
    ensures HasMember(t, server, user) ==> exists x :: x in t.servers && x.id == server
  {
    Store.IdIn(t);
  }

  /**
   An announcement about a user: everybody who is logged in gets the member list of the server they look at,
   if the user is a member of it, and then the list of users; nobody else gets anything.
   */
  lemma AnnouncementReaches(s: State, user: int, k: nat)
    requires SessionsOk(s.sessions, s.users) && Store.TablesOk(s.tables, s.Ids()) && k < |s.sessions|
    ensures var c, s' := s.sessions[k], Announce(s, user);
            PacketsFor(News(s.sent, s'.sent), c.fd)
            == (if LooksAtServerOf(c, s.tables, user) then MemberStream(s, c.currentServer) else [])
               + (if c.authenticated then UserListStream(s.sessions, s.users) else [])
  {
    hide PacketsFor, MemberStream, UserListStream, SessionsOk, Store.TablesOk, NotifyJoined, NotifyUsers, JoinedServers, News;
    var joined := JoinedServers(s.tables, user);
    var a, b := NotifyJoined(s, joined, |joined|), NotifyUsers(s.sessions, s.users, |s.sessions|);
    JoinedIdsDiffer(s.tables, s.Ids(), user);
    JoinedReach(s, joined, |joined|, k);
    ShowsJoined(s.tables, s.Ids(), user, s.sessions[k]);
    UsersReach(s, k);
    PacketsForAppend(a, b, s.sessions[k].fd);
    assert (s.sent + a) + b == s.sent + (a + b);
    NewsOf(s.sent, a + b);
  }
}
