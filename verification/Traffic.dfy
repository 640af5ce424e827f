/** What travels on the sockets: what a client makes of it, and which requests send only what kinds of packets. */
module Traffic {
  import opened Names
  import opened Protocol
  import opened Friends
  import Store
  import opened Listing
  import opened ClientView
  import opened Server
  import opened Invariants

  // ------------------------------------------------------------ the view of a connection

  /** What a client whose user types nothing makes of everything sent on its socket since it was opened. */
  function ViewOf(sent: seq<Out>, fd: int): (v: View)
    ensures ViewOk(v)
  {
    if sent == [] then Blank()
    else
      var o := sent[|sent| - 1];
      if o.fd != fd then ViewOf(sent[..|sent| - 1], fd)
      else if o.Opened? then Blank()
      else Apply(ViewOf(sent[..|sent| - 1], fd), o.packet)
  }

  lemma ViewOfAppend(sent: seq<Out>, o: Out, fd: int)
    ensures ViewOf(sent + [o], fd)
            == if o.fd != fd then ViewOf(sent, fd)
               else if o.Opened? then Blank() else Apply(ViewOf(sent, fd), o.packet)
  {}

  lemma {:induction false} ViewSkips(sent: seq<Out>, outs: seq<Out>, fd: int)
    requires forall o :: o in outs ==> o.fd != fd
    ensures ViewOf(sent + outs, fd) == ViewOf(sent, fd)
  {
    if outs == [] {
      assert sent + outs == sent;
    } else {
      var front, last := outs[..|outs| - 1], outs[|outs| - 1];
      ViewSkips(sent, front, fd);
      assert sent + outs == (sent + front) + [last];
      ViewOfAppend(sent + front, last, fd);
    }
  }

  lemma {:induction false} ViewTakes(sent: seq<Out>, ps: seq<Packet>, fd: int)
    ensures ViewOf(sent + Into(fd, ps), fd) == ApplyAll(ViewOf(sent, fd), ps)
  {
    if ps == [] {
      assert sent + Into(fd, ps) == sent;
    } else {
      var front, last := ps[..|ps| - 1], ps[|ps| - 1];
      ViewTakes(sent, front, fd);
      assert sent + Into(fd, ps) == (sent + Into(fd, front)) + [Sent(fd, last)];
      ViewOfAppend(sent + Into(fd, front), Sent(fd, last), fd);
    }
  }

  lemma {:induction false} IntoFd(fd: int, ps: seq<Packet>)
    ensures forall o :: o in Into(fd, ps) ==> o.Sent? && o.fd == fd && o.packet in ps
  {}

  /** The packets sent on a socket since it was opened. */
  function PacketsOn(sent: seq<Out>, fd: int): seq<Packet> {
    if sent == [] then []
    else
      var o := sent[|sent| - 1];
      if o.fd != fd then PacketsOn(sent[..|sent| - 1], fd)
      else if o.Opened? then []
      else PacketsOn(sent[..|sent| - 1], fd) + [o.packet]
  }

  lemma PacketsOnAppend(sent: seq<Out>, o: Out, fd: int)
    ensures PacketsOn(sent + [o], fd)
            == if o.fd != fd then PacketsOn(sent, fd)
               else if o.Opened? then [] else PacketsOn(sent, fd) + [o.packet]
  {}

  lemma {:induction false} ViewOfPackets(sent: seq<Out>, fd: int)
    ensures ViewOf(sent, fd) == ApplyAll(Blank(), PacketsOn(sent, fd))
  {
    hide Apply;
    if sent != [] {
      var before, o := PacketsOn(sent[..|sent| - 1], fd), sent[|sent| - 1];
      ViewOfPackets(sent[..|sent| - 1], fd);
      if o.fd == fd && !o.Opened? {
        assert (before + [o.packet])[..|before + [o.packet]| - 1] == before;
      }
    }
  }

  /** A client that everything sent has reached shows the lists that the packets make, whatever its user typed and submitted and when. */
  lemma ClientShowsView(xs: seq<Input>, sent: seq<Out>, fd: int)
    requires Arrivals(xs) == PacketsOn(sent, fd)
    ensures SameShown(AdvanceAll(Blank(), xs), ViewOf(sent, fd))
  {
    hide SameShown;
    TypingKeepsLists(Blank(), xs);
    ViewOfPackets(sent, fd);
  }

  /** The packets for a socket among some entries of the log. */
  function PacketsFor(outs: seq<Out>, fd: int): seq<Packet> {
    if outs == [] then []
    else
      var o := outs[|outs| - 1];
      PacketsFor(outs[..|outs| - 1], fd) + if o.Sent? && o.fd == fd then [o.packet] else []
  }

  lemma {:induction false} PacketsForAppend(a: seq<Out>, b: seq<Out>, fd: int)
    ensures PacketsFor(a + b, fd) == PacketsFor(a, fd) + PacketsFor(b, fd)
  {
    if b == [] {
      assert a + b == a;
    } else {
      PacketsForAppend(a, b[..|b| - 1], fd);
      assert (a + b)[..|a + b| - 1] == a + b[..|b| - 1];
    }
  }

  lemma {:induction false} PacketsForOthers(outs: seq<Out>, fd: int)
    requires forall o :: o in outs ==> o.fd != fd
    ensures PacketsFor(outs, fd) == []
  {
    if outs != [] {
      PacketsForOthers(outs[..|outs| - 1], fd);
    }
  }

  lemma {:induction false} PacketsForInto(fd: int, ps: seq<Packet>)
    ensures PacketsFor(Into(fd, ps), fd) == ps
  {
    if ps != [] {
      PacketsForInto(fd, ps[..|ps| - 1]);
      assert Into(fd, ps)[..|ps| - 1] == Into(fd, ps[..|ps| - 1]);
    }
  }

  lemma {:induction false} AllPacketsFor(outs: seq<Out>, fd: int, ok: Packet -> bool)
    requires forall o :: o in outs && o.fd == fd && o.Sent? ==> ok(o.packet)
    ensures forall p :: p in PacketsFor(outs, fd) ==> ok(p)
  {
    if outs != [] {
      AllPacketsFor(outs[..|outs| - 1], fd, ok);
    }
  }

  /** What the log has more than before. */
  function News(a: seq<Out>, b: seq<Out>): seq<Out> {
    if |a| <= |b| then b[|a|..] else []
  }

  lemma NewsOf(a: seq<Out>, outs: seq<Out>)
    ensures News(a, a + outs) == outs
  {}

  /** One more entry for a socket that is not opened again. */
  lemma OneMoreSent(a: seq<Out>, front: seq<Out>, o: Out, fd: int)
    requires a <= front && (o.fd == fd ==> o.Sent?) && PacketsOn(front, fd) == PacketsOn(a, fd) + PacketsFor(News(a, front), fd)
    ensures PacketsOn(front + [o], fd) == PacketsOn(a, fd) + PacketsFor(News(a, front + [o]), fd)
  {
    PacketsOnAppend(front, o, fd);
    hide PacketsOn;
    var news := News(a, front);
    assert News(a, front + [o]) == news + [o];
    hide News;
    assert (news + [o])[..|news|] == news;
    hide PacketsFor;
    assert (PacketsOn(a, fd) + PacketsFor(news, fd)) + [] == PacketsOn(a, fd) + (PacketsFor(news, fd) + []);
  }

  lemma NoNews(a: seq<Out>, fd: int)
    ensures PacketsFor(News(a, a), fd) == []
  {}

  /** What was sent on a socket, in two parts, if it was not opened again in between. */
  lemma {:induction false} PacketsGrow(a: seq<Out>, b: seq<Out>, fd: int)
    requires a <= b && forall k :: |a| <= k < |b| && b[k].fd == fd ==> b[k].Sent?
    ensures PacketsOn(b, fd) == PacketsOn(a, fd) + PacketsFor(News(a, b), fd)
    decreases |b|
  {
    hide PacketsOn, PacketsFor, News;
    if |a| < |b| {
      var front, last := b[..|b| - 1], b[|b| - 1];
      PacketsGrow(a, front, fd);
      OneMoreSent(a, front, last, fd);
      assert b == front + [last];
    } else {
      assert a == b;
      NoNews(a, fd);
    }
  }

  // ------------------------------------------------------------ traffic of one kind

  datatype Kind = Accounts | Dms | Servers | Channels | Socials

  function KindOf(p: Packet): Kind {
    match p.payload
    case Auth(_, _, _, _) => Accounts
    case Dm(_, _, _, _, _) => Dms
    case Server(_, _, _, _, _, _) => Servers
    case Channel(_, _, _, _, _, _, _) => Channels
    case Social(_, _, _, _, _, _) => Socials
  }

  /** A packet of the kind; if it is about servers, the number in it is not negative. */
  predicate OfKind(o: Out, kind: Kind) {
    o.Sent? && KindOf(o.packet) == kind && CountOk(o.packet)
  }

  /** The log goes on with packets of one kind only. */
  ghost predicate AsideLog(a: seq<Out>, b: seq<Out>, kind: Kind) {
    a <= b && forall k :: |a| <= k < |b| ==> OfKind(b[k], kind)
  }

  /** The handler changes no user, no friendship and no identity of a session, and sends packets of one kind only. */
  ghost predicate Aside(s: State, s': State, kind: Kind) {
    s'.users == s.users && s'.friends == s.friends && SameUsers(s.sessions, s'.sessions) && AsideLog(s.sent, s'.sent, kind)
  }

  lemma AsideTrans(a: seq<Out>, b: seq<Out>, c: seq<Out>, kind: Kind)
    requires AsideLog(a, b, kind) && AsideLog(b, c, kind)
    ensures AsideLog(a, c, kind)
  {}

  lemma AsideAppend(a: seq<Out>, outs: seq<Out>, kind: Kind)
    requires forall o :: o in outs ==> OfKind(o, kind)
    ensures AsideLog(a, a + outs, kind)
  {}

  lemma IntoAside(fd: int, ps: seq<Packet>, kind: Kind)
    requires forall p :: p in ps ==> KindOf(p) == kind && CountOk(p)
    ensures forall o :: o in Into(fd, ps) ==> OfKind(o, kind)
  {}

  /** No number of the rows is negative. */
  ghost predicate Counted(rows: seq<Item>) {
    forall i :: i in rows ==> i.count >= 0
  }

  lemma SortCounted(rows: seq<Item>)
    requires Counted(rows)
    ensures Counted(SortBy((i: Item) => i.name, rows))
  {
    SortByPermutes((i: Item) => i.name, rows);
    forall i | i in SortBy((i: Item) => i.name, rows) ensures i in rows {
      assert i in multiset(rows);
    }
    hide SortBy;
  }

  lemma MembersCounted(t: Store.Tables, users: seq<UserRow>, sessions: seq<Session>, server: int)
    ensures Counted(ServerMembers(t, users, sessions, server))
  {
    hide SortBy, Online;
    SortCounted(Map((m: Store.MemberRow) => Item(m.user, NameOf(users, m.user), MemberFlags(m.admin, Online(sessions, m.user))),
                    Filter((m: Store.MemberRow) => m.server == server, t.members)));
  }

  lemma ServersCounted(t: Store.Tables, user: int, server: int)
    ensures Counted(AllServers(t)) && Counted(JoinedServers(t, user)) && Counted(ServerChannels(t, server))
  {
    hide SortBy;
    SortCounted(Map((x: Store.ServerRow) => ServerItem(t, x), t.servers));
    SortCounted(Map((x: Store.ServerRow) => ServerItem(t, x), Filter((x: Store.ServerRow) => Store.IsMember(t, x.id, user), t.servers)));
    SortCounted(Map((c: Store.ChannelRow) => Item(c.id, c.name, 0), Store.ChannelsOf(t, server)));
  }

  /** The packets of a list carry the numbers of its rows. */
  lemma ListCounted(action: int, rows: seq<Item>, limit: nat)
    requires Counted(rows)
    ensures forall p :: p in ListStream(action, Collected(rows, limit)) ==> KindOf(p) == Servers && CountOk(p)
  {}

  lemma {:induction false} MembersAside(s: State, server: int, n: nat)
    requires n <= |s.sessions|
    ensures forall o :: o in NotifyMembers(s, server, n) ==> OfKind(o, Servers)
  {
    if n > 0 {
      MembersAside(s, server, n - 1);
      MembersCounted(s.tables, s.users, s.sessions, server);
      ListCounted(SERVER_LIST_MEMBERS, ServerMembers(s.tables, s.users, s.sessions, server), MAX_SERVER_MEMBERS);
      hide MemberStream;
      IntoAside(s.sessions[n - 1].fd, MemberStream(s, server), Servers);
    }
  }

  lemma AsideConcat(a: seq<Out>, b: seq<Out>, kind: Kind)
    requires (forall o :: o in a ==> OfKind(o, kind)) && forall o :: o in b ==> OfKind(o, kind)
    ensures forall o :: o in a + b ==> OfKind(o, kind)
  {}

  lemma {:induction false} JoinedAside(s: State, servers: seq<Item>, n: nat)
    requires n <= |servers|
    ensures forall o :: o in NotifyJoined(s, servers, n) ==> OfKind(o, Servers)
  {
    hide NotifyMembers, OfKind;
    if n > 0 {
      JoinedAside(s, servers, n - 1);
      MembersAside(s, servers[n - 1].id, |s.sessions|);
      AsideConcat(NotifyJoined(s, servers, n - 1), NotifyMembers(s, servers[n - 1].id, |s.sessions|), Servers);
    }
  }

  lemma {:induction false} BroadcastAside(sessions: seq<Session>, p: Packet, n: nat)
    requires n <= |sessions| && CountOk(p)
    ensures forall o :: o in Broadcast(sessions, p, n) ==> OfKind(o, KindOf(p))
  {
    if n > 0 {
      BroadcastAside(sessions, p, n - 1);
    }
  }

  lemma ServerAside(s: State, i: nat, p: Packet)
    requires i < |s.sessions| && p.payload.Server?
    ensures Aside(s, HandleServer(s, i, p), Servers)
  {
    var q, s' := p.payload, HandleServer(s, i, p);
    hide MemberStream, Store.Perform, ListStream;
    if IsTableAction(q.action) {
      TableAside(s, i, q);
    } else if |s'.sent| != |s.sent| + 1 || s'.sent[|s.sent|] != Sent(s.sessions[i].fd, ServerResponse(q.action, RESP_ERR_INVALID)) {
      ListAside(s, i, p);
    }
  }

  lemma TableAside(s: State, i: nat, q: Payload)
    requires i < |s.sessions| && q.Server? && IsTableAction(q.action)
    ensures Aside(s, HandleTable(s, i, q), Servers)
  {
    hide Store.Perform, MemberStream, NotifyMembers, AsideLog;
    var c := s.sessions[i];
    var (code, tables) := Store.Perform(OpOf(s, c, RequestOf(q)), s.tables);
    var c' := if q.action == SERVER_LEAVE && code.Done? && c.currentServer == q.server then c.(currentServer := -1) else c;
    var s1 := s.(tables := tables, sessions := s.sessions[i := c']).Send(c.fd, ServerResponse(q.action, CodeOf(code)));
    ServerReplyAside(s.sent, c.fd, q.action, CodeOf(code));
    MembersAside(s1, q.server, |s1.sessions|);
    AsideAppend(s1.sent, NotifyMembers(s1, q.server, |s1.sessions|), Servers);
    AsideTrans(s.sent, s1.sent, s1.sent + NotifyMembers(s1, q.server, |s1.sessions|), Servers);
  }

  lemma ServerReplyAside(sent: seq<Out>, fd: int, action: int, status: int)
    ensures AsideLog(sent, sent + [Sent(fd, ServerResponse(action, status))], Servers)
  {}

  lemma ListAside(s: State, i: nat, p: Packet)
    requires i < |s.sessions| && p.payload.Server? && !IsTableAction(p.payload.action)
    ensures Aside(s, HandleServer(s, i, p), Servers)
  {
    var c, q := s.sessions[i], p.payload;
    hide ListStream, Into, AllServers, JoinedServers, ServerChannels, ServerMembers, Collected, Aside, ServerResponse;
    ServersCounted(s.tables, c.id, q.server);
    MembersCounted(s.tables, s.users, s.sessions, q.server);
    if q.action == SERVER_LIST || q.action == SERVER_LIST_JOINED {
      ListIntoAside(s, s, c.fd, q.action, if q.action == SERVER_LIST then AllServers(s.tables) else JoinedServers(s.tables, c.id), MAX_SERVERS);
    } else if q.action == SERVER_LIST_CHANNELS {
      ListIntoAside(s, s, c.fd, q.action, ServerChannels(s.tables, q.server), MAX_CHANNELS);
    } else if q.action == SERVER_LIST_MEMBERS {
      var members := s.(sessions := s.sessions[i := c.(currentServer := ToInt(q.server))]);
      ListIntoAside(s, members, c.fd, q.action, ServerMembers(s.tables, s.users, s.sessions, q.server), MAX_SERVER_MEMBERS);
    }
    ErrorAside(s, c.fd, q.action, RESP_ERR_INVALID);
    ErrorAside(s, c.fd, q.action, RESP_ERR_UNAUTHORIZED);
  }

  lemma ErrorAside(s: State, fd: int, action: int, status: int)
    ensures Aside(s, s.Send(fd, ServerResponse(action, status)), Servers)
  {}

  lemma ListIntoAside(s: State, s1: State, fd: int, action: int, rows: seq<Item>, limit: nat)
    requires s1.users == s.users && s1.friends == s.friends && SameUsers(s.sessions, s1.sessions) && s1.sent == s.sent && Counted(rows)
    ensures Aside(s, s1.SendAll(Into(fd, ListStream(action, Collected(rows, limit)))), Servers)
  {
    ListCounted(action, rows, limit);
    hide ListStream, Into, OfKind, SameUsers;
    IntoAside(fd, ListStream(action, Collected(rows, limit)), Servers);
    AsideAppend(s.sent, Into(fd, ListStream(action, Collected(rows, limit))), Servers);
  }

  lemma ChannelAside(s: State, i: nat, p: Packet)
    requires i < |s.sessions| && p.payload.Channel?
    ensures Aside(s, HandleChannel(s, i, p), Channels)
  {
    hide Store.Perform, Broadcast, ChannelItems;
    var c, q := s.sessions[i], p.payload;
    var stamped := Stamped(p, c);
    BroadcastAside(s.sessions, stamped, |s.sessions|);
    AsideAppend(s.sent, Broadcast(s.sessions, stamped, |s.sessions|), Channels);
    ChannelStreamAside(s, q.channel);
    IntoAside(c.fd, ChannelStream(s, q.channel), Channels);
    AsideAppend(s.sent, Into(c.fd, ChannelStream(s, q.channel)), Channels);
  }

  lemma ChannelStreamAside(s: State, channel: int)
    ensures forall p :: p in ChannelStream(s, channel) ==> p.payload.Channel?
  {}

  lemma DmAside(s: State, i: nat, p: Packet)
    requires i < |s.sessions| && p.payload.Dm?
    ensures Aside(s, HandleDm(s, i, p), Dms)
  {
    var c := s.sessions[i];
    IntoAside(c.fd, DmStream(s.users, c, p.payload.recipient, History(s.dms, c.id, p.payload.recipient)), Dms);
  }

  /** A pushed user list is a list of users. */
  predicate IsUserList(o: Out) {
    o.Sent? && o.packet.payload.Social? && o.packet.payload.action == SOCIAL_LIST_USERS
  }

  lemma UserStreamOuts(fd: int, sessions: seq<Session>, users: seq<UserRow>)
    ensures forall o :: o in Into(fd, UserListStream(sessions, users)) ==> IsUserList(o)
  {}

  lemma {:induction false} UserPushes(sessions: seq<Session>, users: seq<UserRow>, n: nat)
    requires n <= |sessions|
    ensures forall o :: o in NotifyUsers(sessions, users, n) ==> IsUserList(o)
  {
    hide UserListStream, IsUserList, Into;
    if n > 0 {
      UserPushes(sessions, users, n - 1);
      UserStreamOuts(sessions[n - 1].fd, sessions, users);
    }
  }

  /** What an announcement adds to the log: member lists and user lists. */
  lemma AnnounceOuts(s: State, user: int)
    ensures s.sent <= Announce(s, user).sent
    ensures forall k :: |s.sent| <= k < |Announce(s, user).sent| ==>
              OfKind(Announce(s, user).sent[k], Servers) || IsUserList(Announce(s, user).sent[k])
    ensures Announce(s, user) == s.(sent := Announce(s, user).sent)
  {
    hide NotifyJoined, NotifyUsers, OfKind, IsUserList, JoinedServers;
    var joined := JoinedServers(s.tables, user);
    JoinedAside(s, joined, |joined|);
    UserPushes(s.sessions, s.users, |s.sessions|);
  }

  // ------------------------------------------------------------ social requests and logins

  lemma {:induction false} RevokeOutsAreReplies(sessions: seq<Session>, fd: int, user: int, name: string, n: nat)
    requires n <= |sessions|
    ensures forall o :: o in RevokeOuts(sessions, fd, user, name, n) ==> OfKind(o, Accounts)
  {
    if n > 0 {
      RevokeOutsAreReplies(sessions, fd, user, name, n - 1);
    }
  }

  /** What an account request adds to the log: answers, member lists and user lists. */
  predicate IsAccountTraffic(o: Out) {
    OfKind(o, Accounts) || OfKind(o, Servers) || IsUserList(o)
  }

  ghost predicate AccountLog(a: seq<Out>, b: seq<Out>) {
    a <= b && forall k :: |a| <= k < |b| ==> IsAccountTraffic(b[k])
  }

  lemma AccountTrans(a: seq<Out>, b: seq<Out>, c: seq<Out>)
    requires AccountLog(a, b) && AccountLog(b, c)
    ensures AccountLog(a, c)
  {}

  lemma AccountAppend(a: seq<Out>, outs: seq<Out>)
    requires forall o :: o in outs ==> IsAccountTraffic(o)
    ensures AccountLog(a, a + outs)
  {}

  lemma ReplyLog(sent: seq<Out>, dest: int, action: int, status: int, name: string)
    ensures AccountLog(sent, sent + [Sent(dest, AuthReply(action, status, name))])
  {}

  lemma AnnounceLog(s: State, user: int)
    ensures AccountLog(s.sent, Announce(s, user).sent)
  {
    AnnounceOuts(s, user);
    hide Announce, OfKind, IsUserList;
  }

  lemma RegisterLog(s: State, i: nat, name: string, hashOk: bool)
    requires i < |s.sessions|
    ensures AccountLog(s.sent, Register(s, i, name, hashOk).sent)
  {
    hide NotifyUsers, NameTaken, AccountLog;
    var s', dest := Register(s, i, name, hashOk), s.sessions[i].fd;
    var outs := NotifyUsers(s'.sessions, s'.users, |s'.sessions|);
    UserPushes(s'.sessions, s'.users, |s'.sessions|);
    AccountAppend(s.sent, outs);
    ReplyLog(s.sent, dest, AUTH_REGISTER, 1, "");
    ReplyLog(s.sent, dest, AUTH_REGISTER, RESP_ERR_CONFLICT, "");
    ReplyLog(s.sent + outs, dest, AUTH_REGISTER, RESP_OK, "");
    AccountTrans(s.sent, s.sent + outs, s.sent + outs + [Sent(dest, AuthReply(AUTH_REGISTER, RESP_OK, ""))]);
  }

  lemma LoginLog(s: State, i: nat, name: string, hashOk: bool)
    requires i < |s.sessions|
    ensures AccountLog(s.sent, Login(s, i, name, hashOk).sent)
  {
    hide Announce, RevokeOuts, NameTaken, IdOf, AccountLog, OfKind;
    var dest, user := s.sessions[i].fd, IdOf(s.users, name);
    var outs := RevokeOuts(s.sessions, dest, user, name, |s.sessions|);
    RevokeOutsAreReplies(s.sessions, dest, user, name, |s.sessions|);
    AccountAppend(s.sent, outs);
    var s1 := s.SendAll(outs).(sessions := Revoked(s.sessions, dest, user));
    var s2 := s1.(sessions := s1.sessions[i := s1.sessions[i].LoggedIn(user, name)]);
    AnnounceLog(s2, user);
    AccountTrans(s.sent, s1.sent, Announce(s2, user).sent);
    ReplyLog(s.sent, dest, AUTH_LOGIN, 1, "");
    ReplyLog(s.sent, dest, AUTH_LOGIN, RESP_ERR_INVALID, "");
    ReplyLog(Announce(s2, user).sent, dest, AUTH_LOGIN, RESP_OK, "");
    AccountTrans(s.sent, Announce(s2, user).sent, Announce(s2, user).Send(dest, AuthReply(AUTH_LOGIN, RESP_OK, "")).sent);
  }

  lemma LogoutLog(s: State, i: nat)
    requires i < |s.sessions|
    ensures AccountLog(s.sent, Logout(s, i).sent)
  {
    hide Announce, AccountLog;
    var c := s.sessions[i];
    var s1 := s.(sessions := s.sessions[i := c.Cleared()]);
    AnnounceLog(s1, c.id);
    ReplyLog(s.sent, c.fd, AUTH_LOGOUT, RESP_ERR_UNAUTHORIZED, "");
    ReplyLog(Announce(s1, c.id).sent, c.fd, AUTH_LOGOUT, RESP_DONE, c.username);
    if c.authenticated {
      AccountTrans(s.sent, Announce(s1, c.id).sent, Logout(s, i).sent);
    }
  }

  lemma AuthLog(s: State, i: nat, p: Packet, hashOk: bool)
    requires i < |s.sessions| && p.payload.Auth?
    ensures AccountLog(s.sent, HandleAuth(s, i, p, hashOk).sent)
  {
    hide Register, Login, Logout;
    RegisterLog(s, i, p.payload.username, hashOk);
    LoginLog(s, i, p.payload.username, hashOk);
    LogoutLog(s, i);
  }

  lemma {:induction false} ToSessionsAside(sessions: seq<Session>, p: Packet, n: nat)
    requires n <= |sessions| && CountOk(p)
    ensures forall o :: o in ToSessions(sessions, p, n) ==> OfKind(o, KindOf(p))
  {
    if n > 0 {
      ToSessionsAside(sessions, p, n - 1);
    }
  }

  lemma FriendPushAside(s: State, user: int)
    ensures AsideLog(s.sent, s.sent + NotifyFriends(s, user), Socials)
  {
    hide FriendListing, FriendListStream, Into, OfKind, AsideLog;
    var k, stream := FirstWithId(s.sessions, user, 0), FriendListStream(FriendListing(s.friends, s.users, user));
    if k >= 0 {
      FriendStreamKind(FriendListing(s.friends, s.users, user));
      IntoAside(s.sessions[k].fd, stream, Socials);
    }
    AsideAppend(s.sent, NotifyFriends(s, user), Socials);
  }

  lemma FriendAside(s: State, i: nat, action: int, name: string)
    requires i < |s.sessions| && IsFriendAction(action)
    ensures AsideLog(s.sent, HandleFriend(s, i, action, name).sent, Socials)
  {
    hide Perform, NotifyFriends, NameTaken, IdOf;
    var c, other := s.sessions[i], IdOf(s.users, name);
    var (rc, friends) := Perform(FriendOp(VerbOf(action), c.id, other, s.Ids()), s.friends);
    var s2 := s.(friends := friends).Send(c.fd, SocialResponse(action, RESP_OK));
    var s3 := if rc == 1 then s2.SendAll(NotifyFriends(s2, c.id)) else s2;
    FriendPushAside(s2, c.id);
    FriendPushAside(s3, other);
  }

  lemma SocialAside(s: State, i: nat, p: Packet)
    requires i < |s.sessions| && p.payload.Social?
    ensures AsideLog(s.sent, HandleSocial(s, i, p).sent, Socials)
  {
    hide HandleFriend, FriendListing, UserListStream, FriendListStream, ToSessions, Into, UpdateStatus, OfKind, AsideLog;
    var c, action := s.sessions[i], p.payload.action;
    if IsFriendAction(action) {
      FriendAside(s, i, action, p.payload.name);
    }
    FriendStreamKind(FriendListing(s.friends, s.users, c.id));
    IntoAside(c.fd, FriendListStream(FriendListing(s.friends, s.users, c.id)), Socials);
    AsideAppend(s.sent, Into(c.fd, FriendListStream(FriendListing(s.friends, s.users, c.id))), Socials);
    UserStreamKind(s.sessions, s.users);
    IntoAside(c.fd, UserListStream(s.sessions, s.users), Socials);
    AsideAppend(s.sent, Into(c.fd, UserListStream(s.sessions, s.users)), Socials);
    StatusAside(s, i, p.payload.profile);
    SocialReplyAside(s.sent, c.fd, action, RESP_ERR_UNAUTHORIZED);
    SocialReplyAside(s.sent, c.fd, action, RESP_ERR_INVALID);
  }

  lemma SocialReplyAside(sent: seq<Out>, fd: int, action: int, status: int)
    ensures AsideLog(sent, sent + [Sent(fd, SocialResponse(action, status))], Socials)
  {}

  lemma StatusAside(s: State, i: nat, profile: string)
    requires i < |s.sessions|
    ensures AsideLog(s.sent, UpdateStatus(s, i, profile).sent, Socials)
  {
    hide ToSessions;
    var c := s.sessions[i];
    var p := StatusPacket(RESP_OK, c.id, c.username, profile, Online(s.sessions, c.id));
    ToSessionsAside(s.sessions, p, |s.sessions|);
    AsideAppend(s.sent, ToSessions(s.sessions, p, |s.sessions|), Socials);
    AsideAppend(s.sent, [Sent(c.fd, StatusPacket(RESP_ERR_INVALID, c.id, c.username, "", true))], Socials);
    AsideAppend(s.sent, [Sent(c.fd, StatusPacket(RESP_ERR_DB, c.id, c.username, "", true))], Socials);
    hide AsideLog;
  }

  lemma FriendStreamKind(es: seq<FriendEntry>)
    ensures forall p :: p in FriendListStream(es) ==> p.payload.Social?
  {}

  lemma UserStreamKind(sessions: seq<Session>, users: seq<UserRow>)
    ensures forall p :: p in UserListStream(sessions, users) ==> p.payload.Social?
  {}
}
