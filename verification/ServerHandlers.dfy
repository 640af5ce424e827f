/** `server/tizcord_server.c` and the list framing of `server/client_helper.c`. */
module ServerHandlers {
  import opened Names
  import opened Protocol
  import opened Friends
  import Store
  import opened Listing
  import opened Server
  import opened Invariants
  import opened Database
  import opened Context

  // ------------------------------------------------------------ lists

  /** `send_list_response`: one frame per item, or a single empty frame. */
  method SendListResponse(ctx: ServerContext, fd: int, action: int, items: seq<Item>)
    modifies ctx`sent
    ensures ctx.sent == old(ctx.sent) + Into(fd, ListStream(action, items))
  {
    if |items| == 0 {
      ctx.PacketSend(fd, Packet(0, -1, 0, LIST_FRAME_SINGLE, Payload.Server(action, 0, 0, RESP_DONE, 0, "")));
      return;
    }
    ghost var stream := ListStream(action, items);
    for i := 0 to |items|
      invariant ctx.sent == old(ctx.sent) + Into(fd, stream[..i])
    {
      var frame := LIST_FRAME_MIDDLE;
      if |items| == 1 {
        frame := LIST_FRAME_SINGLE;
      } else if i == 0 {
        frame := LIST_FRAME_START;
      } else if i == |items| - 1 {
        frame := LIST_FRAME_END;
      }
      ctx.PacketSend(fd, Packet(0, i, |items|, frame,
                                Payload.Server(action, items[i].id, 0, RESP_OK, items[i].count, Truncated(items[i].name, NAME_LEN))));
      IntoTake(fd, stream, i);
    }
    assert stream[..|items|] == stream;
  }

  /** The rows of `db_list_server_members`; `count` is 1 for an administrator. */
  function MemberRows(t: Store.Tables, users: seq<UserRow>, server: int): seq<Item> {
    SortBy((i: Item) => i.name,
           Map((m: Store.MemberRow) => Item(m.user, NameOf(users, m.user), MemberFlags(m.admin, false)),
               Filter((m: Store.MemberRow) => m.server == server, t.members)))
  }

  function WithPresence(sessions: seq<Session>, i: Item): Item {
    i.(count := i.count + if Online(sessions, i.id) then 2 else 0)
  }

  /** Adding the flags row by row is adding them in the query. */
  lemma FlaggedRows(t: Store.Tables, users: seq<UserRow>, sessions: seq<Session>, server: int)
    ensures ServerMembers(t, users, sessions, server) == Map((i: Item) => WithPresence(sessions, i), MemberRows(t, users, server))
  {
    var plain := Map((m: Store.MemberRow) => Item(m.user, NameOf(users, m.user), MemberFlags(m.admin, false)),
                     Filter((m: Store.MemberRow) => m.server == server, t.members));
    SortByOfMap((i: Item) => i.name, (i: Item) => WithPresence(sessions, i), plain);
    assert Map((i: Item) => WithPresence(sessions, i), plain)
           == Map((m: Store.MemberRow) => Item(m.user, NameOf(users, m.user), MemberFlags(m.admin, Online(sessions, m.user))),
                  Filter((m: Store.MemberRow) => m.server == server, t.members));
  }

  /** `collect_member_list_item`, called for every row. */
  method CollectMembers(ctx: ServerContext, server: int) returns (items: seq<Item>)
    requires ctx.Valid()
    ensures items == Collected(ServerMembers(ctx.db.Tables(), ctx.db.users, ctx.Sessions(), server), MAX_SERVER_MEMBERS)
  {
    hide Online, ServerMembers, MemberRows;
    var rows := MemberRows(ctx.db.Tables(), ctx.db.users, server);
    ghost var flagged := ServerMembers(ctx.db.Tables(), ctx.db.users, ctx.Sessions(), server);
    FlaggedRows(ctx.db.Tables(), ctx.db.users, ctx.Sessions(), server);
    var acc := new Item[MAX_SERVER_MEMBERS](k => Item(0, "", 0));
    var count := 0;
    for k := 0 to |rows|
      invariant 0 <= count <= MAX_SERVER_MEMBERS && count == |First(flagged[..k], MAX_SERVER_MEMBERS)|
      invariant acc[..count] == Collected(flagged[..k], MAX_SERVER_MEMBERS)
    {
      if count < MAX_SERVER_MEMBERS {
        var online := ctx.ClientIsOnline(rows[k].id);
        acc[count] := Item(rows[k].id, Truncated(rows[k].name, NAME_LEN), rows[k].count + if online then 2 else 0);
        assert acc[count] == flagged[k].Cut();
        count := count + 1;
      }
    }
    assert flagged[..|rows|] == flagged;
    items := acc[..count];
  }

  /** `list_members`, past its checks: the record remembers which list it shows. */
  method ListMembers(ctx: ServerContext, i: nat, server: int)
    requires ctx.Valid() && i < ctx.clientCount
    modifies ctx`sent, ctx.clients
    ensures ctx.Valid() && ctx.Pipes() == old(ctx.Pipes())
    ensures ctx.Sessions() == old(ctx.Sessions())[i := old(ctx.Sessions())[i].(currentServer := ToInt(server))]
    ensures ctx.sent == old(ctx.sent) + Into(old(ctx.Sessions())[i].fd, MemberStream(old(ctx.State()), server))
  {
    hide ListStream, ServerMembers, Collected;
    var c := ctx.clients[i].session;
    assert c == ctx.Sessions()[i];
    ghost var before := ctx.Sessions();
    ctx.SetSession(i, c.(currentServer := ToInt(server)));
    var items := CollectMembers(ctx, server);
    SameMembers(ctx.db.Tables(), ctx.db.users, before, ctx.Sessions(), server);
    SendListResponse(ctx, c.fd, SERVER_LIST_MEMBERS, items);
  }

  /** Which list a record shows does not matter for the list. */
  lemma SameMembers(t: Store.Tables, users: seq<UserRow>, a: seq<Session>, b: seq<Session>, server: int)
    requires SameUsers(a, b)
    ensures ServerMembers(t, users, a, server) == ServerMembers(t, users, b, server)
  {
    forall user ensures Online(a, user) == Online(b, user) {
      if i :| 0 <= i < |a| && a[i].Is(user) {
        assert b[i].Is(user);
      }
      if i :| 0 <= i < |b| && b[i].Is(user) {
        assert a[i].Is(user);
      }
    }
    FlaggedRows(t, users, a, server);
    FlaggedRows(t, users, b, server);
    hide Online, ServerMembers, MemberRows;
    assert Map((i: Item) => WithPresence(a, i), MemberRows(t, users, server))
           == Map((i: Item) => WithPresence(b, i), MemberRows(t, users, server));
  }

  /** `notify_server_member_list` */
  method NotifyServerMemberList(ctx: ServerContext, server: int)
    requires ctx.Valid()
    modifies ctx`sent, ctx.clients
    ensures ctx.Valid() && ctx.Pipes() == old(ctx.Pipes()) && ctx.Sessions() == old(ctx.Sessions())
    ensures ctx.sent == old(ctx.sent) + if server <= 0 then [] else NotifyMembers(old(ctx.State()), server, ctx.clientCount)
  {
    hide MemberStream, NotifyMembers, ToInt;
    if server <= 0 {
      return;
    }
    ghost var s := ctx.State();
    MembersStep(s, server, 0);
    for i := 0 to ctx.clientCount
      invariant ctx.Valid() && ctx.Pipes() == old(ctx.Pipes()) && ctx.Sessions() == s.sessions
      invariant ctx.sent == s.sent + NotifyMembers(s, server, i)
    {
      MembersStep(s, server, i);
      var c := ctx.clients[i].session;
      assert c == ctx.Sessions()[i];
      if c.fd <= 0 || !c.authenticated {
        continue;
      }
      if c.currentServer != server {
        continue;
      }
      StreamIgnoresLog(s, ctx.sent, server);
      ListMembers(ctx, i, server);
      SameShown(s.sessions, i, server);
    }
  }

  /** A record that shows the server already is not changed by showing it. */
  lemma SameShown(sessions: seq<Session>, i: nat, server: int)
    requires i < |sessions| && sessions[i].currentServer == server
    ensures sessions[i := sessions[i].(currentServer := ToInt(server))] == sessions
  {}

  lemma MembersStep(s: State, server: int, n: nat)
    ensures NotifyMembers(s, server, 0) == []
    ensures n < |s.sessions| ==>
              var c := s.sessions[n];
              NotifyMembers(s, server, n + 1)
              == NotifyMembers(s, server, n)
                 + if c.fd > 0 && c.authenticated && c.currentServer == server then Into(c.fd, MemberStream(s, server)) else []
  {}

  lemma StreamIgnoresLog(s: State, sent: seq<Out>, server: int)
    ensures MemberStream(s.(sent := sent), server) == MemberStream(s, server)
  {}

  /** `notify_server_member_lists_for_user`: `refresh_joined_server_cb` for each server of the user. */
  method NotifyServerMemberListsForUser(ctx: ServerContext, user: int)
    requires ctx.Valid() && Good(ctx.State())
    modifies ctx`sent, ctx.clients
    ensures ctx.Valid() && ctx.Pipes() == old(ctx.Pipes()) && ctx.Sessions() == old(ctx.Sessions())
    ensures var joined := JoinedServers(ctx.db.Tables(), user);
            ctx.sent == old(ctx.sent) + if user <= 0 then [] else NotifyJoined(old(ctx.State()), joined, |joined|)
  {
    hide NotifyMembers, Good, JoinedServers;
    if user <= 0 {
      return;
    }
    ghost var s := ctx.State();
    var rows := JoinedServers(ctx.db.Tables(), user);
    JoinedAreServers(s, user);
    for k := 0 to |rows|
      invariant ctx.Valid() && ctx.Pipes() == old(ctx.Pipes()) && ctx.Sessions() == s.sessions
      invariant ctx.sent == s.sent + NotifyJoined(s, rows, k)
    {
      assert rows[k] in rows;
      MembersIgnoreLog(s, ctx.sent, rows[k].id, ctx.clientCount);
      NotifyServerMemberList(ctx, rows[k].id);
    }
  }

  lemma {:induction false} MembersIgnoreLog(s: State, sent: seq<Out>, server: int, n: nat)
    requires n <= |s.sessions|
    ensures NotifyMembers(s.(sent := sent), server, n) == NotifyMembers(s, server, n)
  {
    hide MemberStream;
    if n > 0 {
      MembersIgnoreLog(s, sent, server, n - 1);
      StreamIgnoresLog(s, sent, server);
    }
  }

  lemma JoinedAreServers(s: State, user: int)
    requires Good(s)
    ensures forall i :: i in JoinedServers(s.tables, user) ==> i.id > 0
  {
    var kept := Filter((x: Store.ServerRow) => Store.IsMember(s.tables, x.id, user), s.tables.servers);
    var items := Map((x: Store.ServerRow) => ServerItem(s.tables, x), kept);
    FilterMembers((x: Store.ServerRow) => Store.IsMember(s.tables, x.id, user), s.tables.servers);
    SortByPermutes((i: Item) => i.name, items);
    forall i | i in JoinedServers(s.tables, user) ensures i.id > 0 {
      assert i in multiset(items);
      var k :| 0 <= k < |items| && items[k] == i;
      assert kept[k] in s.tables.servers;
    }
  }

  // ------------------------------------------------------------ requests

  /** The answer of a request to the tables, when nothing but the tables changed. */
  lemma TableAnswer(s: State, i: nat, q: Payload, tables: Store.Tables, code: Store.Code)
    requires i < |s.sessions| && q.Server? && IsTableAction(q.action) && q.action != SERVER_LEAVE
    requires Store.Perform(OpOf(s, s.sessions[i], RequestOf(q)), s.tables) == (code, tables)
    ensures var s1 := s.(tables := tables).Send(s.sessions[i].fd, ServerResponse(q.action, CodeOf(code)));
            HandleTable(s, i, q)
            == if q.action == SERVER_JOIN && code.Done? then s1.SendAll(NotifyMembers(s1, q.server, |s1.sessions|)) else s1
  {
    hide Store.Perform, NotifyMembers;
    assert s.sessions[i := s.sessions[i]] == s.sessions;
  }

  /** `join_tizcord_server` */
  method JoinTizcordServer(ctx: ServerContext, i: nat, q: Payload)
    requires ctx.Valid() && i < ctx.clientCount && q.Server? && q.action == SERVER_JOIN
    modifies ctx`sent, ctx.clients, ctx.db`members
    ensures ctx.Valid() && ctx.Pipes() == old(ctx.Pipes())
    ensures ctx.State() == HandleTable(old(ctx.State()), i, q)
  {
    hide NotifyMembers, HandleTable, Store.InsertMember;
    ghost var s := ctx.State();
    var c := ctx.clients[i].session;
    assert c == ctx.Sessions()[i];
    if q.server <= 0 {
      TableAnswer(s, i, q, s.tables, Store.Invalid);
      ctx.PacketSend(c.fd, ServerResponse(SERVER_JOIN, RESP_ERR_INVALID));
      return;
    }
    if !c.authenticated {
      TableAnswer(s, i, q, s.tables, Store.Unauthorized);
      ctx.PacketSend(c.fd, ServerResponse(SERVER_JOIN, RESP_ERR_UNAUTHORIZED));
      return;
    }
    var rc := ctx.db.JoinServer(q.server, c.id, false);
    TableAnswer(s, i, q, ctx.db.Tables(), if rc == 0 then Store.Done else Store.DbError);
    if rc == 0 {
      ctx.PacketSend(c.fd, ServerResponse(SERVER_JOIN, RESP_OK));
      NotifyServerMemberList(ctx, q.server);
    } else {
      ctx.PacketSend(c.fd, ServerResponse(SERVER_JOIN, RESP_ERR_DB));
    }
  }

  /** `leave_tizcord_server` */
  method LeaveTizcordServer(ctx: ServerContext, i: nat, q: Payload)
    requires ctx.Valid() && i < ctx.clientCount && q.Server? && q.action == SERVER_LEAVE
    modifies ctx`sent, ctx.clients, ctx.db`members
    ensures ctx.Valid() && ctx.Pipes() == old(ctx.Pipes())
    ensures ctx.State() == HandleTable(old(ctx.State()), i, q)
  {
    hide NotifyMembers, Store.DeleteMember;
    ghost var s := ctx.State();
    var c := ctx.clients[i].session;
    assert c == ctx.Sessions()[i];
    assert s.sessions[i := c] == s.sessions;
    if q.server <= 0 {
      ctx.PacketSend(c.fd, ServerResponse(SERVER_LEAVE, RESP_ERR_INVALID));
      return;
    }
    if !c.authenticated {
      ctx.PacketSend(c.fd, ServerResponse(SERVER_LEAVE, RESP_ERR_UNAUTHORIZED));
      return;
    }
    ctx.db.LeaveServer(q.server, c.id);
    if c.currentServer == q.server {
      ctx.SetSession(i, c.(currentServer := -1));
    }
    ctx.PacketSend(c.fd, ServerResponse(SERVER_LEAVE, RESP_OK));
    NotifyServerMemberList(ctx, q.server);
  }

  /** `create_tizcord_server` */
  method CreateTizcordServer(ctx: ServerContext, i: nat, q: Payload)
    requires ctx.Valid() && i < ctx.clientCount && q.Server? && q.action == SERVER_CREATE
    modifies ctx`sent, ctx.db`servers, ctx.db`members
    ensures ctx.State() == HandleTable(old(ctx.State()), i, q)
  {
    hide NotifyMembers, HandleTable, Store.CreateServer;
    ghost var s := ctx.State();
    var c := ctx.clients[i].session;
    assert c == ctx.Sessions()[i];
    if q.name == "" {
      TableAnswer(s, i, q, s.tables, Store.Invalid);
      ctx.PacketSend(c.fd, ServerResponse(SERVER_CREATE, RESP_ERR_INVALID));
      return;
    }
    if !c.authenticated {
      TableAnswer(s, i, q, s.tables, Store.Unauthorized);
      ctx.PacketSend(c.fd, ServerResponse(SERVER_CREATE, RESP_ERR_UNAUTHORIZED));
      return;
    }
    var rc := ctx.db.CreateServer(q.name, c.id);
    TableAnswer(s, i, q, ctx.db.Tables(), if rc == 0 then Store.Done else Store.DbError);
    ctx.PacketSend(c.fd, ServerResponse(SERVER_CREATE, if rc == 0 then RESP_OK else RESP_ERR_DB));
  }

  /** `delete_tizcord_server` */
  method DeleteTizcordServer(ctx: ServerContext, i: nat, q: Payload)
    requires ctx.Valid() && i < ctx.clientCount && q.Server? && q.action == SERVER_DELETE
    modifies ctx`sent, ctx.db`servers, ctx.db`members, ctx.db`channels, ctx.db`messages
    ensures ctx.State() == HandleTable(old(ctx.State()), i, q)
  {
    hide NotifyMembers, HandleTable, Store.DeleteServer;
    ghost var s := ctx.State();
    var c := ctx.clients[i].session;
    assert c == ctx.Sessions()[i];
    if q.server <= 0 {
      TableAnswer(s, i, q, s.tables, Store.Invalid);
      ctx.PacketSend(c.fd, ServerResponse(SERVER_DELETE, RESP_ERR_INVALID));
      return;
    }
    if !c.authenticated {
      TableAnswer(s, i, q, s.tables, Store.Unauthorized);
      ctx.PacketSend(c.fd, ServerResponse(SERVER_DELETE, RESP_ERR_UNAUTHORIZED));
      return;
    }
    var found, admin := ctx.db.UserIsServerAdmin(q.server, c.id);
    if found != 0 || !admin {
      TableAnswer(s, i, q, s.tables, Store.Unauthorized);
      ctx.PacketSend(c.fd, ServerResponse(SERVER_DELETE, RESP_ERR_UNAUTHORIZED));
      return;
    }
    var rc := ctx.db.DeleteServer(q.server, c.id);
    TableAnswer(s, i, q, ctx.db.Tables(), Store.Done);
    ctx.PacketSend(c.fd, ServerResponse(SERVER_DELETE, if rc == 0 then RESP_OK else RESP_ERR_DB));
  }

  /** `kick_server_member` */
  method KickServerMember(ctx: ServerContext, i: nat, q: Payload)
    requires ctx.Valid() && i < ctx.clientCount && q.Server? && q.action == SERVER_KICK_MEMBER
    modifies ctx`sent, ctx.db`members
    ensures ctx.State() == HandleTable(old(ctx.State()), i, q)
  {
    hide NotifyMembers, HandleTable, Store.DeleteMember;
    ghost var s := ctx.State();
    var c := ctx.clients[i].session;
    assert c == ctx.Sessions()[i];
    if q.server <= 0 || q.target <= 0 {
      TableAnswer(s, i, q, s.tables, Store.Invalid);
      ctx.PacketSend(c.fd, ServerResponse(SERVER_KICK_MEMBER, RESP_ERR_INVALID));
      return;
    }
    if !c.authenticated {
      TableAnswer(s, i, q, s.tables, Store.Unauthorized);
      ctx.PacketSend(c.fd, ServerResponse(SERVER_KICK_MEMBER, RESP_ERR_UNAUTHORIZED));
      return;
    }
    var found, admin := ctx.db.UserIsServerAdmin(q.server, c.id);
    if found != 0 || !admin {
      TableAnswer(s, i, q, s.tables, Store.Unauthorized);
      ctx.PacketSend(c.fd, ServerResponse(SERVER_KICK_MEMBER, RESP_ERR_UNAUTHORIZED));
      return;
    }
    var rc := ctx.db.KickServerMember(q.server, q.target);
    TableAnswer(s, i, q, ctx.db.Tables(), if rc == 0 then Store.Done else Store.DbError);
    ctx.PacketSend(c.fd, ServerResponse(SERVER_KICK_MEMBER, if rc == 0 then RESP_OK else RESP_ERR_DB));
  }

  /** `list_tizcord_servers`, `list_joined_servers`, `list_tizcord_channels` and the request arm of `list_members`. */
  method HandleListRequest(ctx: ServerContext, i: nat, q: Payload)
    requires ctx.Valid() && i < ctx.clientCount && q.Server? && IsListAction(q.action)
    modifies ctx`sent, ctx.clients
    ensures ctx.Valid() && ctx.Pipes() == old(ctx.Pipes())
    ensures ctx.State() == HandleServer(old(ctx.State()), i, Plain(q))
  {
    hide ListStream, ServerMembers, AllServers, JoinedServers, ServerChannels;
    ghost var s := ctx.State();
    var c := ctx.clients[i].session;
    assert c == ctx.Sessions()[i];
    if (q.action == SERVER_LIST_CHANNELS || q.action == SERVER_LIST_MEMBERS) && q.server <= 0 {
      ctx.PacketSend(c.fd, ServerResponse(q.action, RESP_ERR_INVALID));
    } else if !c.authenticated {
      ctx.PacketSend(c.fd, ServerResponse(q.action, RESP_ERR_UNAUTHORIZED));
    } else if q.action == SERVER_LIST {
      var items, truncated := Collect(AllServers(ctx.db.Tables()), MAX_SERVERS);
      SendListResponse(ctx, c.fd, q.action, items);
    } else if q.action == SERVER_LIST_JOINED {
      var items, truncated := Collect(JoinedServers(ctx.db.Tables(), c.id), MAX_SERVERS);
      SendListResponse(ctx, c.fd, q.action, items);
    } else if q.action == SERVER_LIST_CHANNELS {
      var items, truncated := Collect(ServerChannels(ctx.db.Tables(), q.server), MAX_CHANNELS);
      SendListResponse(ctx, c.fd, q.action, items);
    } else {
      ListMembers(ctx, i, q.server);
    }
  }

  /** `handle_server_packet` */
  method HandleServerPacket(ctx: ServerContext, i: nat, p: Packet)
    requires ctx.Valid() && i < ctx.clientCount && p.payload.Server?
    modifies ctx`sent, ctx.clients, ctx.db`servers, ctx.db`members, ctx.db`channels, ctx.db`messages
    ensures ctx.Valid() && ctx.Pipes() == old(ctx.Pipes())
    ensures ctx.State() == HandleServer(old(ctx.State()), i, p)
  {
    hide HandleTable, ListStream, ServerMembers, AllServers, JoinedServers, ServerChannels;
    var q := p.payload;
    if q.action == SERVER_JOIN {
      JoinTizcordServer(ctx, i, q);
    } else if q.action == SERVER_LEAVE {
      LeaveTizcordServer(ctx, i, q);
    } else if q.action == SERVER_CREATE {
      CreateTizcordServer(ctx, i, q);
    } else if q.action == SERVER_DELETE {
      DeleteTizcordServer(ctx, i, q);
    } else if q.action == SERVER_KICK_MEMBER {
      KickServerMember(ctx, i, q);
    } else if IsListAction(q.action) {
      HandleListRequest(ctx, i, q);
    } else {
      assert ctx.clients[i].session == ctx.Sessions()[i];
      ctx.PacketSend(ctx.clients[i].session.fd, ServerResponse(q.action, RESP_ERR_INVALID));
    }
  }
}
