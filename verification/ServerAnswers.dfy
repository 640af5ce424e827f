/** How requests about servers and channels are answered, and who else hears of them: over the rows and the connections. */
module ServerAnswers {
  import opened Names
  import opened Protocol
  import opened Friends
  import Store
  import opened Rules
  import opened Listing
  import opened Server
  import opened Invariants
  import opened Traffic
  import opened Lifecycle
  import opened PanelView
  import opened Frames
  import opened Delivery

  // ------------------------------------------------------------ lists

  /** The servers asked for, by name, each once, with the number of its members. */
  ghost predicate CarriesServers(ps: seq<Packet>, t: Store.Tables, action: int, user: int) {
    exists rows: seq<Item> ::
      && (forall i :: i in rows <==> exists x :: IsAsked(t, action, user, x) && i == Item(x.id, x.name, Size(t, x.id)))
      && |rows| == |AskedFor(t, action, user)| && SortedBy((i: Item) => i.name, rows)
      && CarriesItems(ps, action, rows, MAX_SERVERS)
  }

  /** The channels of the server, by name, each once. */
  ghost predicate CarriesChannels(ps: seq<Packet>, t: Store.Tables, server: int) {
    exists rows: seq<Item> ::
      && (forall i :: i in rows <==> exists c :: c in t.channels && c.server == server && i == Item(c.id, c.name, 0))
      && |rows| == |set c | c in t.channels && c.server == server| && SortedBy((i: Item) => i.name, rows)
      && CarriesItems(ps, SERVER_LIST_CHANNELS, rows, MAX_CHANNELS)
  }

  /** The item of a member: its user's name, 1 for an administrator, 2 for somebody who is connected. */
  ghost predicate IsMemberItem(i: Item, m: Store.MemberRow, users: seq<UserRow>, sessions: seq<Session>) {
    && i.id == m.user && i.count == (if m.admin then 1 else 0) + (if IsLive(sessions, m.user) then 2 else 0)
    && forall u :: u in users && u.id == m.user ==> i.name == u.name
  }

  ghost predicate HasRow(t: Store.Tables, server: int, i: Item, users: seq<UserRow>, sessions: seq<Session>) {
    exists m :: m in t.members && m.server == server && IsMemberItem(i, m, users, sessions)
  }

  ghost predicate HasItem(rows: seq<Item>, m: Store.MemberRow, users: seq<UserRow>, sessions: seq<Session>) {
    exists i :: i in rows && IsMemberItem(i, m, users, sessions)
  }

  /** The members of the server, by name, each once. */
  ghost predicate AreMembers(rows: seq<Item>, s: State, server: int) {
    && (forall i :: i in rows ==> HasRow(s.tables, server, i, s.users, s.sessions))
    && (forall m :: m in s.tables.members && m.server == server ==> HasItem(rows, m, s.users, s.sessions))
    && |rows| == Size(s.tables, server) && SortedBy((i: Item) => i.name, rows)
  }

  ghost predicate CarriesMembers(ps: seq<Packet>, s: State, server: int) {
    exists rows: seq<Item> :: AreMembers(rows, s, server) && CarriesItems(ps, SERVER_LIST_MEMBERS, rows, MAX_SERVER_MEMBERS)
  }

  lemma ServersAreCarried(t: Store.Tables, users: seq<int>, action: int, user: int)
    requires Store.TablesOk(t, users) && (action == SERVER_LIST || action == SERVER_LIST_JOINED)
    ensures var rows := if action == SERVER_LIST then AllServers(t) else JoinedServers(t, user);
            CarriesServers(ListStream(action, Collected(rows, MAX_SERVERS)), t, action, user)
  {
    var rows := if action == SERVER_LIST then AllServers(t) else JoinedServers(t, user);
    ItemsAreCarried(action, rows, MAX_SERVERS);
    AskedCount(t, users, action, user);
    hide AllServers, JoinedServers, Store.TablesOk, SortedBy, Size, HasMember, ListStream, Collected, CarriesItems, AskedFor;
    forall i ensures i in rows <==> exists x :: IsAsked(t, action, user, x) && i == Item(x.id, x.name, Size(t, x.id)) {
      AllServersAreExact(t, users, i);
      JoinedServersAreExact(t, users, user, i);
      if i in rows {
        var x :| x in t.servers && (action == SERVER_LIST || HasMember(t, x.id, user)) && i == Item(x.id, x.name, Size(t, x.id));
        assert IsAsked(t, action, user, x);
      }
    }
    AllServersAreExact(t, users, Item(0, "", 0));
    JoinedServersAreExact(t, users, user, Item(0, "", 0));
  }

  lemma ChannelsAreCarried(t: Store.Tables, users: seq<int>, server: int)
    requires Store.TablesOk(t, users)
    ensures CarriesChannels(ListStream(SERVER_LIST_CHANNELS, Collected(ServerChannels(t, server), MAX_CHANNELS)), t, server)
  {
    ItemsAreCarried(SERVER_LIST_CHANNELS, ServerChannels(t, server), MAX_CHANNELS);
    hide ServerChannels, Store.TablesOk, SortedBy, ListStream, Collected, CarriesItems;
    forall i ensures i in ServerChannels(t, server) <==> exists c :: c in t.channels && c.server == server && i == Item(c.id, c.name, 0) {
      ChannelsAreExact(t, users, server, i);
    }
    ChannelsAreExact(t, users, server, Item(0, "", 0));
  }

  lemma MemberItem(s: State, m: Store.MemberRow)
    requires Good(s)
    ensures IsMemberItem(Item(m.user, NameOf(s.users, m.user), MemberFlags(m.admin, Online(s.sessions, m.user))), m, s.users, s.sessions)
  {
    GoodUsers(s);
    NamesAre(s.users, m.user);
    LiveIsOnline(s.sessions, m.user);
    hide Good, UsersOk, NameOf, Online, IsLive;
  }

  lemma ItemHasRow(s: State, server: int, i: Item)
    requires Good(s) && i in ServerMembers(s.tables, s.users, s.sessions, server)
    ensures HasRow(s.tables, server, i, s.users, s.sessions)
  {
    GoodChannels(s);
    hide ServerMembers, Store.TablesOk, SortedBy, IsMemberItem, Good, UserIds, Size, NameOf, Online;
    MembersAreExact(s.tables, s.users, s.sessions, server, i);
    var m :| m in s.tables.members && m.server == server
             && i == Item(m.user, NameOf(s.users, m.user), MemberFlags(m.admin, Online(s.sessions, m.user)));
    MemberItem(s, m);
  }

  lemma RowHasItem(s: State, server: int, m: Store.MemberRow)
    requires Good(s) && m in s.tables.members && m.server == server
    ensures HasItem(ServerMembers(s.tables, s.users, s.sessions, server), m, s.users, s.sessions)
  {
    GoodChannels(s);
    hide ServerMembers, Store.TablesOk, SortedBy, IsMemberItem, Good, UserIds, Size, NameOf, Online;
    var i := Item(m.user, NameOf(s.users, m.user), MemberFlags(m.admin, Online(s.sessions, m.user)));
    MembersAreExact(s.tables, s.users, s.sessions, server, i);
    MemberItem(s, m);
  }

  lemma ListIsByName(s: State, server: int)
    requires Good(s)
    ensures var rows := ServerMembers(s.tables, s.users, s.sessions, server); |rows| == Size(s.tables, server) && SortedBy((i: Item) => i.name, rows)
  {
    GoodChannels(s);
    MembersAreExact(s.tables, s.users, s.sessions, server, Item(0, "", 0));
    hide ServerMembers, Store.TablesOk, SortedBy, Good, UserIds, Size;
  }

  lemma RowsAreMembers(s: State, server: int)
    requires Good(s)
    ensures AreMembers(ServerMembers(s.tables, s.users, s.sessions, server), s, server)
  {
    var rows := ServerMembers(s.tables, s.users, s.sessions, server);
    ListIsByName(s, server);
    hide ServerMembers, SortedBy, Good, Size, HasRow, HasItem;
    forall i | i in rows ensures HasRow(s.tables, server, i, s.users, s.sessions) {
      ItemHasRow(s, server, i);
    }
    forall m | m in s.tables.members && m.server == server ensures HasItem(rows, m, s.users, s.sessions) {
      RowHasItem(s, server, m);
    }
  }

  lemma MembersAreCarried(s: State, server: int)
    requires Good(s)
    ensures CarriesMembers(MemberStream(s, server), s, server)
  {
    RowsAreMembers(s, server);
    ItemsAreCarried(SERVER_LIST_MEMBERS, ServerMembers(s.tables, s.users, s.sessions, server), MAX_SERVER_MEMBERS);
    hide AreMembers, CarriesItems, ServerMembers, ListStream, Collected, Good;
  }

  /** Why a list is refused: a request about one server needs its id, and every request a login. */
  predicate ListStatus(q: Payload, c: Session, status: int)
    requires q.Server?
  {
    var one := q.action == SERVER_LIST_CHANNELS || q.action == SERVER_LIST_MEMBERS;
    var all := q.action == SERVER_LIST || q.action == SERVER_LIST_JOINED;
    status == if !one && !all then RESP_ERR_INVALID
              else if one && q.server <= 0 then RESP_ERR_INVALID
              else if !c.authenticated then RESP_ERR_UNAUTHORIZED
              else RESP_OK
  }

  /**
   A list request is answered on its own connection by the rows asked for, or by one error that says why not;
   a request for members makes the connection look at the server, and nothing else changes.
   */
  lemma ListsAreAnswered(s: State, i: nat, p: Packet, hashOk: bool, status: int)
    requires Good(s) && i < |s.sessions| && p.payload.Server? && !IsTableAction(p.payload.action)
    requires ListStatus(p.payload, s.sessions[i], status)
    ensures var s', c, q := Step(s, Request(i, p, hashOk)), s.sessions[i], p.payload;
            && s' == s.(sessions := s'.sessions, sent := s'.sent)
            && s'.sessions == (if status == RESP_OK && q.action == SERVER_LIST_MEMBERS
                               then s.sessions[i := c.(currentServer := ToInt(q.server))] else s.sessions)
            && exists ps :: AnsweredBy(s, s', c.fd, ps)
                            && if status != RESP_OK then ps == [Plain(Server(q.action, 0, 0, status, 0, ""))]
                               else if q.action == SERVER_LIST_CHANNELS then CarriesChannels(ps, s.tables, q.server)
                               else if q.action == SERVER_LIST_MEMBERS then CarriesMembers(ps, s, q.server)
                               else CarriesServers(ps, s.tables, q.action, c.id)
  {
    hide Good, AllServers, JoinedServers, ServerChannels, MemberStream, ListStream, Collected, Into, CarriesChannels, CarriesMembers, CarriesServers, ToInt;
    var s', c, q := Step(s, Request(i, p, hashOk)), s.sessions[i], p.payload;
    GoodChannels(s);
    if status != RESP_OK {
      ErrorIsAnswer(s, c.fd, Plain(Server(q.action, 0, 0, status, 0, "")));
      assert AnsweredBy(s, s', c.fd, [Plain(Server(q.action, 0, 0, status, 0, ""))]);
    } else if q.action == SERVER_LIST_CHANNELS {
      ChannelsAreCarried(s.tables, s.Ids(), q.server);
      assert AnsweredBy(s, s', c.fd, ListStream(q.action, Collected(ServerChannels(s.tables, q.server), MAX_CHANNELS)));
    } else if q.action == SERVER_LIST_MEMBERS {
      MembersAreCarried(s, q.server);
      assert AnsweredBy(s, s', c.fd, MemberStream(s, q.server));
    } else {
      ServersAreCarried(s.tables, s.Ids(), q.action, c.id);
      var rows := if q.action == SERVER_LIST then AllServers(s.tables) else JoinedServers(s.tables, c.id);
      assert AnsweredBy(s, s', c.fd, ListStream(q.action, Collected(rows, MAX_SERVERS)));
    }
  }

  lemma ErrorIsAnswer(s: State, fd: int, p: Packet)
    ensures s.Send(fd, p).sent == s.sent + Into(fd, [p])
  {}

  // ------------------------------------------------------------ requests that change the tables

  /** The status in the answer: done, or the first rule that does not hold. */
  ghost function StatusOf(op: Store.Op, t: Store.Tables): int {
    if !WellFormed(op.request) then RESP_ERR_INVALID
    else if !Found(op.request, t) then RESP_ERR_NOT_FOUND
    else if !Entitled(op, t) then RESP_ERR_UNAUTHORIZED
    else if !Fitting(op, t) then RESP_ERR_DB
    else RESP_OK
  }

  /** The request has been done if the rules allow it, with exactly its effect on the tables, and otherwise not at all. */
  ghost predicate Obeyed(op: Store.Op, s: State, s': State) {
    && s' == s.(tables := s'.tables, sessions := s'.sessions, sent := s'.sent)
    && (Allowed(op, s.tables) ==> Leaves(op, s.tables, s'.tables))
    && (!Allowed(op, s.tables) ==> s'.tables == s.tables)
  }

  /** The log goes on with this answer, and then with the given packets on every connection. */
  ghost predicate AnswersFirst(s: State, s': State, fd: int, p: Packet) {
    s.sent + [Sent(fd, p)] <= s'.sent
  }

  /** What a connection gets after the answer to its own or somebody else's request. */
  ghost function Later(s: State, s': State, fd: int): seq<Packet> {
    if |s.sent| < |s'.sent| then PacketsFor(s'.sent[|s.sent| + 1..], fd) else []
  }

  /** After a join or a leave every logged-in connection that looks at the server gets its member list, and nobody else anything. */
  ghost predicate MembersPushed(s: State, s': State, server: int) {
    && (forall k :: 0 <= k < |s'.sessions| ==>
          var c := s'.sessions[k];
          if c.authenticated && c.currentServer == server then CarriesMembers(Later(s, s', c.fd), s', server) else Later(s, s', c.fd) == [])
    && forall fd :: (forall k :: 0 <= k < |s'.sessions| ==> s'.sessions[k].fd != fd) ==> Later(s, s', fd) == []
  }

  /** A request about a server as it should be handled; a client that leaves the server it looks at looks at none. */
  ghost predicate Handled(s: State, s': State, i: nat, action: int, r: Store.Request, server: int)
    requires i < |s.sessions|
  {
    var c := s.sessions[i];
    var op := Store.Op(c.id, c.authenticated, r, s.Ids());
    && Obeyed(op, s, s')
    && AnswersFirst(s, s', c.fd, Plain(Server(action, 0, 0, StatusOf(op, s.tables), 0, "")))
    && s'.sessions == (if r.Leave? && Allowed(op, s.tables) && c.currentServer == server then s.sessions[i := c.(currentServer := -1)] else s.sessions)
    && (if (r.Join? || r.Leave?) && Allowed(op, s.tables) then MembersPushed(s, s', server) else |s'.sent| == |s.sent| + 1)
  }

  lemma CodeIsStatus(op: Store.Op, t: Store.Tables)
    requires Store.TablesOk(t, op.users) && (op.authenticated ==> op.actor in op.users)
    ensures CodeOf(Store.Perform(op, t).0) == StatusOf(op, t)
    ensures Store.Perform(op, t).0.Done? <==> Allowed(op, t)
    ensures StatusOf(op, t) == RESP_OK <==> Allowed(op, t)
  {
    DoneExactlyWhenAllowed(op, t);
    hide Store.Perform, Store.TablesOk, WellFormed, Found, Entitled, Fitting;
  }

  lemma OpIsObeyed(s: State, i: nat, r: Store.Request, s': State)
    requires Good(s) && i < |s.sessions|
    requires var op := Store.Op(s.sessions[i].id, s.sessions[i].authenticated, r, s.Ids());
             s' == s.(tables := Store.Perform(op, s.tables).1, sessions := s'.sessions, sent := s'.sent)
    ensures var op := Store.Op(s.sessions[i].id, s.sessions[i].authenticated, r, s.Ids());
            && Obeyed(op, s, s') && CodeOf(Store.Perform(op, s.tables).0) == StatusOf(op, s.tables)
            && (Store.Perform(op, s.tables).0.Done? <==> Allowed(op, s.tables))
  {
    var op := Store.Op(s.sessions[i].id, s.sessions[i].authenticated, r, s.Ids());
    KnownActor(s, i);
    GoodChannels(s);
    hide Good;
    CodeIsStatus(op, s.tables);
    TablesAfter(op, s.tables);
    hide Store.Perform, Store.TablesOk, Allowed, Leaves, StatusOf;
  }

  lemma KnownActor(s: State, i: nat)
    requires Good(s) && i < |s.sessions|
    ensures s.sessions[i].authenticated ==> s.sessions[i].id in s.Ids()
  {
    assert s.sessions[i] in s.sessions;
  }

  /** The push of a member list in a good state, after an answer. */
  lemma PushIsPushed(s: State, s1: State, server: int)
    requires Good(s1) && |s.sent| + 1 == |s1.sent| && s.sent <= s1.sent
    ensures MembersPushed(s, s1.SendAll(NotifyMembers(s1, server, |s1.sessions|)), server)
  {
    hide Good, MemberStream, PacketsFor, CarriesMembers, NotifyMembers;
    var outs := NotifyMembers(s1, server, |s1.sessions|);
    var s' := s1.SendAll(outs);
    assert s'.sent[|s.sent| + 1..] == outs;
    GoodSessions(s1);
    forall k | 0 <= k < |s'.sessions|
      ensures var c := s'.sessions[k];
              if c.authenticated && c.currentServer == server then CarriesMembers(Later(s, s', c.fd), s', server) else Later(s, s', c.fd) == []
    {
      MembersReach(s1, server, k);
      MembersAreCarried(s1, server);
      SameCarried(MemberStream(s1, server), s1, s', server);
    }
    forall fd | forall k :: 0 <= k < |s'.sessions| ==> s'.sessions[k].fd != fd ensures Later(s, s', fd) == [] {
      MembersFanOut(s1, server, |s1.sessions|);
      FanOutElsewhere(s1.sessions, (c: Session) => Streamed(c.fd > 0 && c.authenticated && c.currentServer == server, MemberStream(s1, server)), |s1.sessions|, fd);
    }
  }

  lemma SameCarried(ps: seq<Packet>, s: State, s': State, server: int)
    requires CarriesMembers(ps, s, server) && s'.tables == s.tables && s'.users == s.users && s'.sessions == s.sessions
    ensures CarriesMembers(ps, s', server)
  {
    hide HasRow, HasItem, CarriesItems, Size, SortedBy;
    var rows: seq<Item> :| AreMembers(rows, s, server) && CarriesItems(ps, SERVER_LIST_MEMBERS, rows, MAX_SERVER_MEMBERS);
    assert AreMembers(rows, s', server);
  }

  lemma GoodSessions(s: State)
    requires Good(s)
    ensures SessionsOk(s.sessions, s.users)
  {}

  /** `HandleTable` for one request. */
  lemma TableIsHandled(s: State, i: nat, q: Payload)
    requires Good(s) && i < |s.sessions| && q.Server? && IsTableAction(q.action)
    ensures Handled(s, HandleTable(s, i, q), i, q.action, RequestOf(q), q.server)
  {
    hide Good, Store.Perform, NotifyMembers, Obeyed, Allowed, StatusOf, MembersPushed, RequestOf;
    var c, r, s' := s.sessions[i], RequestOf(q), HandleTable(s, i, q);
    var op := Store.Op(c.id, c.authenticated, r, s.Ids());
    RequestKind(q);
    OpIsObeyed(s, i, r, s');
    var (code, tables) := Store.Perform(op, s.tables);
    var c' := if r.Leave? && code.Done? && c.currentServer == q.server then c.(currentServer := -1) else c;
    var s1 := s.(tables := tables, sessions := s.sessions[i := c']).Send(c.fd, ServerResponse(q.action, CodeOf(code)));
    TableStateGood(s, i, op, c', s1.sent);
    if (r.Join? || r.Leave?) && code.Done? {
      PushIsPushed(s, s1, q.server);
    }
  }

  lemma RequestKind(q: Payload)
    requires q.Server? && IsTableAction(q.action)
    ensures RequestOf(q).Join? <==> q.action == SERVER_JOIN
    ensures RequestOf(q).Leave? <==> q.action == SERVER_LEAVE
  {}

  lemma TableStateGood(s: State, i: nat, op: Store.Op, c': Session, sent: seq<Out>)
    requires Good(s) && i < |s.sessions| && op.users == s.Ids() && c' == s.sessions[i].(currentServer := c'.currentServer)
    ensures Good(s.(tables := Store.Perform(op, s.tables).1, sessions := s.sessions[i := c'], sent := sent))
  {
    NewTablesKeepDatabase(s, op);
    SameUsersKeepsSessions(s.sessions, s.sessions[i := c'], s.users);
    hide DatabaseOk, SessionsOk, Store.Perform;
    var s1 := s.(tables := Store.Perform(op, s.tables).1);
    DatabaseIsTables(s1, s1.(sessions := s.sessions[i := c'], sent := sent));
  }

  lemma DatabaseIsTables(s: State, s': State)
    requires DatabaseOk(s) && s' == s.(sessions := s'.sessions, sent := s'.sent)
    ensures DatabaseOk(s')
  {}

  /**
   Every request to join, leave, create or delete a server or to kick a member is done exactly when the rules
   allow it, with exactly its effect; the answer comes first and says so or why not; a join or a leave is
   told to all who look at the server.
   */
  lemma RequestsAreHandled(s: State, i: nat, p: Packet, hashOk: bool)
    requires Good(s) && i < |s.sessions| && p.payload.Server?
    ensures var s', q := Step(s, Request(i, p, hashOk)), p.payload;
            && (q.action == SERVER_JOIN ==> Handled(s, s', i, SERVER_JOIN, Store.Join(q.server), q.server))
            && (q.action == SERVER_LEAVE ==> Handled(s, s', i, SERVER_LEAVE, Store.Leave(q.server), q.server))
            && (q.action == SERVER_CREATE ==> Handled(s, s', i, SERVER_CREATE, Store.Create(q.name), q.server))
            && (q.action == SERVER_DELETE ==> Handled(s, s', i, SERVER_DELETE, Store.Delete(q.server), q.server))
            && (q.action == SERVER_KICK_MEMBER ==> Handled(s, s', i, SERVER_KICK_MEMBER, Store.Kick(q.server, q.target), q.server))
  {
    hide Good, Handled, HandleTable;
    if IsTableAction(p.payload.action) {
      TableIsHandled(s, i, p.payload);
    }
  }

  // ------------------------------------------------------------ requests about channels

  predicate ChannelReply(s: State, s': State, fd: int, server: int, status: int, id: int, name: string) {
    AnsweredBy(s, s', fd, [Plain(Channel(CHANNEL_CREATE, server, status, id, name, 0, ""))])
  }

  /** The answer to the creation of a channel: the id of its row and its name, or the reason why there is none. */
  lemma ChannelIsCreated(s: State, i: nat, p: Packet, hashOk: bool)
    requires Good(s) && i < |s.sessions| && p.payload.Channel? && p.payload.action == CHANNEL_CREATE
    ensures var s', c, q := Step(s, Request(i, p, hashOk)), s.sessions[i], p.payload;
            var op := Store.Op(c.id, c.authenticated, Store.AddChannel(q.server, q.name), s.Ids());
            && Obeyed(op, s, s') && s'.sessions == s.sessions
            && if Allowed(op, s.tables)
               then exists id :: ChannelReply(s, s', c.fd, q.server, RESP_OK, id, Truncated(q.name, NAME_LEN))
                                 && s'.tables.channels == s.tables.channels + [Store.ChannelRow(id, q.server, q.name)]
               else ChannelReply(s, s', c.fd, q.server, StatusOf(op, s.tables), 0, "")
  {
    var s', c, q := Step(s, Request(i, p, hashOk)), s.sessions[i], p.payload;
    var op := Store.Op(c.id, c.authenticated, Store.AddChannel(q.server, q.name), s.Ids());
    hide Good, Obeyed, Allowed, StatusOf, NextId;
    OpIsObeyed(s, i, op.request, s');
    GoodChannels(s);
    KnownActor(s, i);
    CodeIsStatus(op, s.tables);
    var (code, tables) := Store.Perform(op, s.tables);
    var id := if code.Done? then NextId(Store.ChannelIds(s.tables.channels)) else 0;
    assert code.Done? ==> s'.tables.channels == s.tables.channels + [Store.ChannelRow(id, q.server, q.name)];
    hide Store.Perform;
    SendIsAnswer(s, s', c.fd, Plain(Channel(CHANNEL_CREATE, q.server, CodeOf(code), id, if code.Done? then Truncated(q.name, NAME_LEN) else "", 0, "")));
    assert ChannelReply(s, s', c.fd, q.server, StatusOf(op, s.tables), id, if code.Done? then Truncated(q.name, NAME_LEN) else "");
    hide ChannelReply, Step, AnsweredBy, Store.TablesOk;
  }

  lemma SendIsAnswer(s: State, s': State, fd: int, p: Packet)
    requires s'.sent == s.sent + [Sent(fd, p)]
    ensures AnsweredBy(s, s', fd, [p])
  {}

  /** The answer to the deletion of a channel is OK exactly when the channel went. */
  lemma ChannelIsDeleted(s: State, i: nat, p: Packet, hashOk: bool)
    requires Good(s) && i < |s.sessions| && p.payload.Channel? && p.payload.action == CHANNEL_DELETE
    ensures var s', c, q := Step(s, Request(i, p, hashOk)), s.sessions[i], p.payload;
            var op := Store.Op(c.id, c.authenticated, Store.DropChannel(q.channel), s.Ids());
            && Obeyed(op, s, s') && s'.sessions == s.sessions
            && AnsweredBy(s, s', c.fd, [Plain(Channel(CHANNEL_DELETE, 0, StatusOf(op, s.tables), q.channel, "", 0, ""))])
            && (StatusOf(op, s.tables) == RESP_OK <==> HasChannel(s.tables, q.channel) && !HasChannel(s'.tables, q.channel))
  {
    var s', c, q := Step(s, Request(i, p, hashOk)), s.sessions[i], p.payload;
    var op := Store.Op(c.id, c.authenticated, Store.DropChannel(q.channel), s.Ids());
    hide Good, Store.Perform;
    OpIsObeyed(s, i, op.request, s');
    SendIsAnswer(s, s', c.fd, Plain(Channel(CHANNEL_DELETE, 0, StatusOf(op, s.tables), q.channel, "", 0, "")));
    GoodChannels(s);
    ChannelWent(op, s.tables, s'.tables);
    hide AnsweredBy;
  }

  /** Without the row of a channel the channel is gone. */
  lemma GoneWithItsRow(channels: seq<Store.ChannelRow>, k: nat, c: Store.ChannelRow)
    requires Pairwise(Store.ChannelsDiffer, channels) && k < |channels| && c in Without(channels, k)
    ensures c.id != channels[k].id
  {
    var rest := Without(channels, k);
    var j :| 0 <= j < |rest| && rest[j] == c;
    var i := if j < k then j else j + 1;
    assert channels[i] == c && Store.ChannelsDiffer(channels[if i < k then i else k], channels[if i < k then k else i]);
  }

  lemma DistinctChannels(t: Store.Tables, users: seq<int>)
    requires Store.TablesOk(t, users)
    ensures Pairwise(Store.ChannelsDiffer, t.channels)
  {}

  lemma ChannelWent(op: Store.Op, t: Store.Tables, t': Store.Tables)
    requires Store.TablesOk(t, op.users) && op.request.DropChannel?
    requires if Allowed(op, t) then Leaves(op, t, t') else t' == t
    ensures StatusOf(op, t) == RESP_OK <==> HasChannel(t, op.request.channel) && !HasChannel(t', op.request.channel)
  {
    DistinctChannels(t, op.users);
    hide Store.TablesOk, Entitled, Pairwise, Fitting, WellFormed, Without;
    if Allowed(op, t) {
      var k :| 0 <= k < |t.channels| && t.channels[k].id == op.request.channel && t'.channels == Without(t.channels, k);
      assert t.channels[k] in t.channels;
      forall c | c in t'.channels ensures c.id != op.request.channel {
        GoneWithItsRow(t.channels, k, c);
      }
    }
    StatusSaysAllowed(op, t);
    hide Allowed, StatusOf;
  }

  lemma StatusSaysAllowed(op: Store.Op, t: Store.Tables)
    ensures StatusOf(op, t) == RESP_OK <==> Allowed(op, t)
  {
    hide WellFormed, Found, Entitled, Fitting;
  }

  /**
   A channel's history goes to the connection that asks for it and nowhere else: one frame for each message
   of that channel, in the order of the table, between a START and an END; nothing changes.
   */
  lemma HistoryIsAnswered(s: State, i: nat, p: Packet, hashOk: bool)
    requires Good(s) && i < |s.sessions| && p.payload.Channel? && p.payload.action == CHANNEL_HISTORY_REQUEST
    ensures var s', c := Step(s, Request(i, p, hashOk)), s.sessions[i];
            && s' == s.(sent := s'.sent)
            && exists ps :: AnsweredBy(s, s', c.fd, ps) && CarriesChannel(ps, s.tables.messages, s.users, p.payload.channel)
  {
    HistoryIsSent(s, i, p, hashOk);
    hide Good, Step, ChannelStream, CarriesChannel, AnsweredBy;
    ChannelIsCarried(s, p.payload.channel);
  }

  lemma HistoryIsSent(s: State, i: nat, p: Packet, hashOk: bool)
    requires i < |s.sessions| && p.payload.Channel? && p.payload.action == CHANNEL_HISTORY_REQUEST
    ensures var s' := Step(s, Request(i, p, hashOk)); s' == s.(sent := s'.sent) && AnsweredBy(s, s', s.sessions[i].fd, ChannelStream(s, p.payload.channel))
  {
    hide ChannelStream, Into;
  }

  /**
   A message in a channel goes to every connection, stamped with the id and the name of the session it comes
   from, and is stored exactly when that session is logged in and there is such a channel.
   */
  lemma MessageIsSpread(s: State, i: nat, p: Packet, hashOk: bool)
    requires Good(s) && i < |s.sessions| && p.payload.Channel? && p.payload.action == CHANNEL_MESSAGE
    ensures var s', c, q := Step(s, Request(i, p, hashOk)), s.sessions[i], p.payload;
            var said := Packet(c.id, p.index, p.total, p.frame,
                               Channel(CHANNEL_MESSAGE, q.server, q.status, q.channel, Truncated(c.username, NAME_LEN), q.messageId, q.text));
            && Obeyed(Store.Op(c.id, c.authenticated, Store.Post(q.channel, q.text), s.Ids()), s, s') && s'.sessions == s.sessions
            && s.sent <= s'.sent
            && (forall k :: 0 <= k < |s.sessions| ==> PacketsFor(News(s.sent, s'.sent), s.sessions[k].fd) == [said])
            && forall fd :: (forall k :: 0 <= k < |s.sessions| ==> s.sessions[k].fd != fd) ==> PacketsFor(News(s.sent, s'.sent), fd) == []
  {
    var s', c, q := Step(s, Request(i, p, hashOk)), s.sessions[i], p.payload;
    hide Good, Store.Perform, Obeyed, PacketsFor, Broadcast;
    OpIsObeyed(s, i, Store.Post(q.channel, q.text), s');
    var said := Stamped(p, c);
    MessageFansOut(s.sessions, said, |s.sessions|);
    GoodSessions(s);
    NewsOf(s.sent, Broadcast(s.sessions, said, |s.sessions|));
    forall k | 0 <= k < |s.sessions| ensures PacketsFor(News(s.sent, s'.sent), s.sessions[k].fd) == [said] {
      PositiveFd(s.sessions, s.users, k);
      FanOutReaches(s.sessions, s.users, (c: Session) => Given(c.fd > 0, said), |s.sessions|, k);
    }
    forall fd | forall k :: 0 <= k < |s.sessions| ==> s.sessions[k].fd != fd ensures PacketsFor(News(s.sent, s'.sent), fd) == [] {
      FanOutElsewhere(s.sessions, (c: Session) => Given(c.fd > 0, said), |s.sessions|, fd);
    }
  }

  /** No other request about channels does anything. */
  lemma OtherChannelActions(s: State, i: nat, p: Packet, hashOk: bool)
    requires i < |s.sessions| && p.payload.Channel?
    requires !(p.payload.action in [CHANNEL_CREATE, CHANNEL_DELETE, CHANNEL_MESSAGE, CHANNEL_HISTORY_REQUEST])
    ensures Step(s, Request(i, p, hashOk)) == s
  {}
}
