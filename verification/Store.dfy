/**
 Servers, members, channels and channel messages: the tables of `db/schema.sql`, their
 operations in `server/db.c`, and the checks that `server/tizcord_server.c` and
 `server/tizcord_chat.c` make before they call them.
 */
module Store {
  import opened Names

  datatype ServerRow = ServerRow(id: int, name: string)
  datatype MemberRow = MemberRow(server: int, user: int, admin: bool)
  datatype ChannelRow = ChannelRow(id: int, server: int, name: string)
  datatype MessageRow = MessageRow(id: int, channel: int, user: int, text: string)

  datatype Tables = Tables(servers: seq<ServerRow>, members: seq<MemberRow>, channels: seq<ChannelRow>, messages: seq<MessageRow>)

  function ServerIds(s: seq<ServerRow>): seq<int> {
    Map((x: ServerRow) => x.id, s)
  }

  function ChannelIds(s: seq<ChannelRow>): seq<int> {
    Map((x: ChannelRow) => x.id, s)
  }

  function MessageIds(s: seq<MessageRow>): seq<int> {
    Map((x: MessageRow) => x.id, s)
  }

  // ------------------------------------------------------------ constraints of the schema

  predicate ServersDiffer(a: ServerRow, b: ServerRow) {
    a.id != b.id && a.name != b.name
  }

  predicate MembersDiffer(a: MemberRow, b: MemberRow) {
    a.server == b.server ==> a.user != b.user && !(a.admin && b.admin)
  }

  predicate ChannelsDiffer(a: ChannelRow, b: ChannelRow) {
    a.id != b.id && !(a.server == b.server && a.name == b.name)
  }

  predicate MessagesDiffer(a: MessageRow, b: MessageRow) {
    a.id != b.id
  }

  /** Every UNIQUE and FOREIGN KEY constraint, positive ids, and at most one administrator per server. */
  ghost predicate TablesOk(t: Tables, users: seq<int>) {
    && Pairwise(ServersDiffer, t.servers) && (forall x :: x in t.servers ==> 0 < x.id)
    && Pairwise(MembersDiffer, t.members)
    && (forall m :: m in t.members ==> m.server in ServerIds(t.servers) && m.user in users)
    && Pairwise(ChannelsDiffer, t.channels)
    && (forall c :: c in t.channels ==> 0 < c.id && c.server in ServerIds(t.servers))
    && Pairwise(MessagesDiffer, t.messages)
    && (forall m :: m in t.messages ==> m.channel in ChannelIds(t.channels) && m.user in users)
  }

  // ------------------------------------------------------------ statements

  predicate IsMember(t: Tables, server: int, user: int) {
    MemberRow(server, user, true) in t.members || MemberRow(server, user, false) in t.members
  }

  /** `db_user_is_server_admin(...) == 0 && is_admin` */
  predicate IsAdmin(t: Tables, server: int, user: int) {
    MemberRow(server, user, true) in t.members
  }

  /** INSERT INTO server_members; the result code and the table. */
  function InsertMember(t: Tables, users: seq<int>, server: int, user: int, admin: bool): (int, Tables) {
    if IsMember(t, server, user) || server !in ServerIds(t.servers) || user !in users then (-1, t)
    else (0, t.(members := t.members + [MemberRow(server, user, admin)]))
  }

  /** `db_create_server`: a failed second insert leaves the new server without members. */
  function CreateServer(t: Tables, users: seq<int>, name: string, user: int): (int, Tables) {
    if name in Map((x: ServerRow) => x.name, t.servers) then (-1, t)
    else
      var id := NextId(ServerIds(t.servers));
      InsertMember(t.(servers := t.servers + [ServerRow(id, name)]), users, id, user, true)
  }

  /** DELETE FROM server_members WHERE server_id = ? AND user_id = ? */
  function DeleteMember(t: Tables, server: int, user: int): Tables {
    t.(members := Filter((m: MemberRow) => !(m.server == server && m.user == user), t.members))
  }

  /** DELETE FROM channels WHERE id = ?, with ON DELETE CASCADE */
  function DeleteChannel(t: Tables, channel: int): Tables {
    t.(channels := Filter((c: ChannelRow) => c.id != channel, t.channels),
       messages := Filter((m: MessageRow) => m.channel != channel, t.messages))
  }

  function ChannelsOf(t: Tables, server: int): seq<ChannelRow> {
    Filter((c: ChannelRow) => c.server == server, t.channels)
  }

  /** DELETE FROM servers WHERE id = ?, with ON DELETE CASCADE through members, channels and messages */
  function DeleteServer(t: Tables, server: int): Tables {
    Tables(Filter((x: ServerRow) => x.id != server, t.servers),
           Filter((m: MemberRow) => m.server != server, t.members),
           Filter((c: ChannelRow) => c.server != server, t.channels),
           Filter((m: MessageRow) => m.channel !in ChannelIds(ChannelsOf(t, server)), t.messages))
  }

  /** INSERT INTO channels */
  function CreateChannel(t: Tables, server: int, name: string): (int, Tables) {
    if server !in ServerIds(t.servers) || (exists c :: c in t.channels && c.server == server && c.name == name) then (-1, t)
    else (0, t.(channels := t.channels + [ChannelRow(NextId(ChannelIds(t.channels)), server, name)]))
  }

  /** `db_get_channel_server_id` */
  function ServerOfChannel(channels: seq<ChannelRow>, channel: int): (server: int)
    ensures channel !in ChannelIds(channels) ==> server == 0
    ensures channel in ChannelIds(channels) ==> exists c :: c in channels && c.id == channel && c.server == server
  {
    if channels == [] then 0
    else if channels[0].id == channel then channels[0].server
    else
      assert channel in ChannelIds(channels) ==> channel in ChannelIds(channels[1..]) by {
        assert ChannelIds(channels) == [channels[0].id] + ChannelIds(channels[1..]);
      }
      assert channel in ChannelIds(channels[1..]) ==> channel in ChannelIds(channels) by {
        assert ChannelIds(channels) == [channels[0].id] + ChannelIds(channels[1..]);
      }
      ServerOfChannel(channels[1..], channel)
  }

  /** INSERT INTO messages */
  function SaveMessage(t: Tables, users: seq<int>, channel: int, user: int, text: string): (int, Tables) {
    if channel !in ChannelIds(t.channels) || user !in users then (-1, t)
    else (0, t.(messages := t.messages + [MessageRow(NextId(MessageIds(t.messages)), channel, user, text)]))
  }

  // ------------------------------------------------------------ requests, with the checks of their handlers

  /** What a client may ask for. */
  datatype Request =
    | Create(name: string)
    | Join(server: int)
    | Leave(server: int)
    | Delete(server: int)
    | Kick(server: int, user: int)
    | AddChannel(server: int, name: string)
    | DropChannel(channel: int)
    | Post(channel: int, text: string)

  /** A request of a session: its user id (0 when it has none), and the users there are at that time. */
  datatype Op = Op(actor: int, authenticated: bool, request: Request, users: seq<int>)

  datatype Code = Done | Invalid | Unauthorized | NotFound | DbError

  /** How a request is answered, and what it leaves. */
  function Perform(op: Op, t: Tables): (Code, Tables) {
    match op.request
    case Create(name) =>
      if name == "" then (Invalid, t)
      else if !op.authenticated then (Unauthorized, t)
      else
        var (rc, t') := CreateServer(t, op.users, name, op.actor);
        (if rc == 0 then Done else DbError, t')
    case Join(server) =>
      if server <= 0 then (Invalid, t)
      else if !op.authenticated then (Unauthorized, t)
      else
        var (rc, t') := InsertMember(t, op.users, server, op.actor, false);
        (if rc == 0 then Done else DbError, t')
    case Leave(server) =>
      if server <= 0 then (Invalid, t)
      else if !op.authenticated then (Unauthorized, t)
      else (Done, DeleteMember(t, server, op.actor))
    case Delete(server) =>
      if server <= 0 then (Invalid, t)
      else if !op.authenticated || !IsAdmin(t, server, op.actor) then (Unauthorized, t)
      else (Done, DeleteServer(t, server))
    case Kick(server, user) =>
      if server <= 0 || user <= 0 then (Invalid, t)
      else if !op.authenticated || !IsAdmin(t, server, op.actor) then (Unauthorized, t)
      else if !IsMember(t, server, user) then (DbError, t)
      else (Done, DeleteMember(t, server, user))
    case AddChannel(server, name) =>
      if !IsAdmin(t, server, op.actor) then (Unauthorized, t)
      else
        var (rc, t') := CreateChannel(t, server, name);
        (if rc == 0 then Done else DbError, t')
    case DropChannel(channel) =>
      if channel !in ChannelIds(t.channels) then (NotFound, t)
      else if !IsAdmin(t, ServerOfChannel(t.channels, channel), op.actor) then (Unauthorized, t)
      else (Done, DeleteChannel(t, channel))
    case Post(channel, text) =>
      var (rc, t') := SaveMessage(t, op.users, channel, op.actor, text);
      (if rc == 0 then Done else DbError, t')
  }

  /** SELECT ... FROM messages WHERE channel_id = ? */
  function HistoryOf(t: Tables, channel: int): seq<MessageRow> {
    Filter((m: MessageRow) => m.channel == channel, t.messages)
  }

  // ------------------------------------------------------------ integrity of the statements

  lemma PairwiseAppend<T(!new)>(distinct: (T, T) -> bool, s: seq<T>, x: T)
    requires Pairwise(distinct, s) && forall y :: y in s ==> distinct(y, x)
    ensures Pairwise(distinct, s + [x])
  {}

  lemma ServerIdsAppend(s: seq<ServerRow>, x: ServerRow)
    ensures ServerIds(s + [x]) == ServerIds(s) + [x.id]
  {}

  lemma IdIn(t: Tables)
    ensures forall x :: x in t.servers ==> x.id in ServerIds(t.servers)
    ensures forall c :: c in t.channels ==> c.id in ChannelIds(t.channels)
    ensures forall m :: m in t.messages ==> m.id in MessageIds(t.messages)
    ensures forall i :: i in ServerIds(t.servers) ==> exists x :: x in t.servers && x.id == i
    ensures forall i :: i in ChannelIds(t.channels) ==> exists c :: c in t.channels && c.id == i
  {}

  lemma InsertMemberKeeps(t: Tables, users: seq<int>, server: int, user: int, admin: bool)
    requires TablesOk(t, users)
    requires admin ==> forall m :: m in t.members ==> m.server != server
    ensures TablesOk(InsertMember(t, users, server, user, admin).1, users)
  {}

  lemma AddServerKeeps(t: Tables, users: seq<int>, name: string)
    requires TablesOk(t, users) && name !in Map((x: ServerRow) => x.name, t.servers)
    ensures var id := NextId(ServerIds(t.servers));
            && TablesOk(t.(servers := t.servers + [ServerRow(id, name)]), users)
            && (forall m :: m in t.members ==> m.server != id)
            && (forall c :: c in t.channels ==> c.server != id)
  {
    var row := ServerRow(NextId(ServerIds(t.servers)), name);
    IdIn(t);
    forall x | x in t.servers ensures ServersDiffer(x, row) {
      var k :| 0 <= k < |t.servers| && t.servers[k] == x;
      assert Map((x: ServerRow) => x.name, t.servers)[k] == x.name;
    }
    PairwiseAppend(ServersDiffer, t.servers, row);
    ServerIdsAppend(t.servers, row);
  }

  lemma CreateChannelKeeps(t: Tables, users: seq<int>, server: int, name: string)
    requires TablesOk(t, users)
    ensures TablesOk(CreateChannel(t, server, name).1, users)
  {
    var row := ChannelRow(NextId(ChannelIds(t.channels)), server, name);
    IdIn(t);
    if CreateChannel(t, server, name).0 == 0 {
      PairwiseAppend(ChannelsDiffer, t.channels, row);
      assert ChannelIds(t.channels + [row]) == ChannelIds(t.channels) + [row.id];
    }
  }

  lemma SaveMessageKeeps(t: Tables, users: seq<int>, channel: int, user: int, text: string)
    requires TablesOk(t, users)
    ensures TablesOk(SaveMessage(t, users, channel, user, text).1, users)
  {}

  lemma DeleteMemberKeeps(t: Tables, users: seq<int>, server: int, user: int)
    requires TablesOk(t, users)
    ensures TablesOk(DeleteMember(t, server, user), users)
  {
    var keep := (m: MemberRow) => !(m.server == server && m.user == user);
    FilterMembers(keep, t.members);
    FilterKeepsPairwise(MembersDiffer, keep, t.members);
  }

  lemma DeleteChannelKeeps(t: Tables, users: seq<int>, channel: int)
    requires TablesOk(t, users)
    ensures TablesOk(DeleteChannel(t, channel), users)
  {
    var t' := DeleteChannel(t, channel);
    var keepC := (c: ChannelRow) => c.id != channel;
    var keepM := (m: MessageRow) => m.channel != channel;
    FilterMembers(keepC, t.channels);
    FilterKeepsPairwise(ChannelsDiffer, keepC, t.channels);
    FilterMembers(keepM, t.messages);
    FilterKeepsPairwise(MessagesDiffer, keepM, t.messages);
    IdIn(t);
    IdIn(t');
  }

  /** Deleting a server removes the server, its members, its channels and their messages, and nothing else. */
  lemma DeleteServerExactly(t: Tables, users: seq<int>, server: int)
    requires TablesOk(t, users)
    ensures var t' := DeleteServer(t, server);
            && (forall x :: x in t'.servers <==> x in t.servers && x.id != server)
            && (forall m :: m in t'.members <==> m in t.members && m.server != server)
            && (forall c :: c in t'.channels <==> c in t.channels && c.server != server)
            && (forall m :: m in t'.messages <==>
                  m in t.messages && exists c :: c in t.channels && c.id == m.channel && c.server != server)
  {
    var t' := DeleteServer(t, server);
    FilterMembers((x: ServerRow) => x.id != server, t.servers);
    FilterMembers((m: MemberRow) => m.server != server, t.members);
    FilterMembers((c: ChannelRow) => c.server != server, t.channels);
    FilterMembers((c: ChannelRow) => c.server == server, t.channels);
    FilterMembers((m: MessageRow) => m.channel !in ChannelIds(ChannelsOf(t, server)), t.messages);
    IdIn(t);
    IdIn(t.(channels := ChannelsOf(t, server)));
    forall c, d | c in t.channels && d in t.channels && c.id == d.id ensures c == d {
      ChannelUnique(t.channels, c, d);
    }
  }

  lemma ChannelUnique(s: seq<ChannelRow>, c: ChannelRow, d: ChannelRow)
    requires Pairwise(ChannelsDiffer, s) && c in s && d in s && c.id == d.id
    ensures c == d
  {}

  lemma DeleteServerKeeps(t: Tables, users: seq<int>, server: int)
    requires TablesOk(t, users)
    ensures TablesOk(DeleteServer(t, server), users)
  {
    DeleteServerExactly(t, users, server);
    FilterKeepsPairwise(ServersDiffer, (x: ServerRow) => x.id != server, t.servers);
    FilterKeepsPairwise(MembersDiffer, (m: MemberRow) => m.server != server, t.members);
    FilterKeepsPairwise(ChannelsDiffer, (c: ChannelRow) => c.server != server, t.channels);
    FilterKeepsPairwise(MessagesDiffer, (m: MessageRow) => m.channel !in ChannelIds(ChannelsOf(t, server)), t.messages);
    IdIn(t);
    IdIn(DeleteServer(t, server));
  }

  /** Every request, allowed or refused, keeps all constraints. */
  lemma PerformKeepsTables(op: Op, t: Tables)
    requires TablesOk(t, op.users)
    ensures TablesOk(Perform(op, t).1, op.users)
  {
    hide TablesOk;
    match op.request
    case Create(name) =>
      if name !in Map((x: ServerRow) => x.name, t.servers) {
        AddServerKeeps(t, op.users, name);
        var id := NextId(ServerIds(t.servers));
        InsertMemberKeeps(t.(servers := t.servers + [ServerRow(id, name)]), op.users, id, op.actor, true);
      }
    case Join(server) => InsertMemberKeeps(t, op.users, server, op.actor, false);
    case Leave(server) => DeleteMemberKeeps(t, op.users, server, op.actor);
    case Delete(server) => DeleteServerKeeps(t, op.users, server);
    case Kick(server, user) => DeleteMemberKeeps(t, op.users, server, user);
    case AddChannel(server, name) => CreateChannelKeeps(t, op.users, server, name);
    case DropChannel(channel) => DeleteChannelKeeps(t, op.users, channel);
    case Post(channel, text) => SaveMessageKeeps(t, op.users, channel, op.actor, text);
  }

  lemma MoreUsersKeepTables(t: Tables, users: seq<int>, users': seq<int>)
    requires TablesOk(t, users) && forall u :: u in users ==> u in users'
    ensures TablesOk(t, users')
  {}

  // ------------------------------------------------------------ new ids start empty

  /** Creation by a known user succeeds exactly when the name is free, and even on a reused id the creator is alone. */
  lemma NewServerHasItsCreatorOnly(t: Tables, users: seq<int>, name: string, user: int)
    requires TablesOk(t, users) && user in users
    ensures var (rc, t') := CreateServer(t, users, name, user);
            var id := NextId(ServerIds(t.servers));
            && (rc == 0 <==> forall x :: x in t.servers ==> x.name != name)
            && (rc == 0 ==>
                  && ServerRow(id, name) in t'.servers
                  && IsAdmin(t', id, user)
                  && (forall m :: m in t'.members && m.server == id ==> m == MemberRow(id, user, true))
                  && (forall c :: c in t'.channels ==> c.server != id))
            && (rc != 0 ==> t' == t)
  {
    var names := Map((x: ServerRow) => x.name, t.servers);
    var id := NextId(ServerIds(t.servers));
    if name in names {
      var k :| 0 <= k < |names| && names[k] == name;
      assert t.servers[k] in t.servers;
    } else {
      forall x | x in t.servers ensures x.name != name {
        var k :| 0 <= k < |t.servers| && t.servers[k] == x;
        assert names[k] == x.name;
      }
      AddServerKeeps(t, users, name);
      ServerIdsAppend(t.servers, ServerRow(id, name));
    }
  }

  /** A new channel has no history, even on a reused id. */
  lemma NewChannelIsEmpty(t: Tables, users: seq<int>, server: int, name: string)
    requires TablesOk(t, users) && CreateChannel(t, server, name).0 == 0
    ensures var t' := CreateChannel(t, server, name).1;
            var id := NextId(ChannelIds(t.channels));
            && ChannelRow(id, server, name) in t'.channels
            && forall m :: m in t'.messages ==> m.channel != id
  {}

  // ------------------------------------------------------------ the life of an administrator

  /** The server exists and nobody administers it. */
  ghost predicate Orphaned(t: Tables, server: int) {
    server in ServerIds(t.servers) && forall m :: m in t.members && m.server == server ==> !m.admin
  }

  /** The server is still an orphan and has the channels it had. */
  ghost predicate Frozen(t: Tables, t': Tables, server: int) {
    Orphaned(t', server) && ChannelsOf(t', server) == ChannelsOf(t, server)
  }

  lemma CreateFreezes(t: Tables, users: seq<int>, name: string, user: int, server: int)
    requires Orphaned(t, server)
    ensures Frozen(t, CreateServer(t, users, name, user).1, server)
  {
    ServerIdsAppend(t.servers, ServerRow(NextId(ServerIds(t.servers)), name));
  }

  lemma DeleteServerFreezes(t: Tables, other: int, server: int)
    requires Orphaned(t, server) && other != server
    ensures Frozen(t, DeleteServer(t, other), server)
  {
    var t' := DeleteServer(t, other);
    IdIn(t);
    IdIn(t');
    FilterMembers((x: ServerRow) => x.id != other, t.servers);
    FilterMembers((m: MemberRow) => m.server != other, t.members);
    FilterOfFilter((c: ChannelRow) => c.server == server, (c: ChannelRow) => c.server != other, t.channels);
  }

  lemma DeleteMemberFreezes(t: Tables, other: int, user: int, server: int)
    requires Orphaned(t, server)
    ensures Frozen(t, DeleteMember(t, other, user), server)
  {
    FilterMembers((m: MemberRow) => !(m.server == other && m.user == user), t.members);
  }

  lemma CreateChannelFreezes(t: Tables, other: int, name: string, server: int)
    requires Orphaned(t, server) && other != server
    ensures Frozen(t, CreateChannel(t, other, name).1, server)
  {}

  lemma DeleteChannelFreezes(t: Tables, channel: int, server: int)
    requires Orphaned(t, server) && Pairwise(ChannelsDiffer, t.channels)
    requires channel in ChannelIds(t.channels) && ServerOfChannel(t.channels, channel) != server
    ensures Frozen(t, DeleteChannel(t, channel), server)
  {
    ChannelGone(t, channel, server);
  }

  /** No request of anyone revives an orphan: not its deletion, not its channels, not an administrator. */
  lemma PerformKeepsOrphan(op: Op, t: Tables, server: int)
    requires Orphaned(t, server) && Pairwise(ChannelsDiffer, t.channels)
    ensures Frozen(t, Perform(op, t).1, server)
  {
    hide DeleteServer, DeleteMember, DeleteChannel, CreateChannel, CreateServer, ServerOfChannel;
    match op.request
    case Create(name) => CreateFreezes(t, op.users, name, op.actor, server);
    case Join(_) =>
    case Leave(other) => DeleteMemberFreezes(t, other, op.actor, server);
    case Delete(other) =>
      if IsAdmin(t, other, op.actor) {
        DeleteServerFreezes(t, other, server);
      }
    case Kick(other, user) => DeleteMemberFreezes(t, other, user, server);
    case AddChannel(other, name) =>
      if IsAdmin(t, other, op.actor) {
        CreateChannelFreezes(t, other, name, server);
      }
    case DropChannel(channel) =>
      if channel in ChannelIds(t.channels) && IsAdmin(t, ServerOfChannel(t.channels, channel), op.actor) {
        DeleteChannelFreezes(t, channel, server);
      }
    case Post(_, _) =>
  }

  /** Nobody but `user` administers the server. */
  ghost predicate OnlyAdmin(t: Tables, server: int, user: int) {
    forall m :: m in t.members && m.server == server && m.admin ==> m.user == user
  }

  lemma PerformKeepsOnlyAdmin(op: Op, t: Tables, server: int, user: int)
    requires OnlyAdmin(t, server, user) && server in ServerIds(t.servers)
    ensures OnlyAdmin(Perform(op, t).1, server, user)
    ensures server in ServerIds(Perform(op, t).1.servers) || op.request == Delete(server)
  {
    var t' := Perform(op, t).1;
    match op.request
    case Create(name) => ServerIdsAppend(t.servers, ServerRow(NextId(ServerIds(t.servers)), name));
    case Leave(other) => FilterMembers((m: MemberRow) => !(m.server == other && m.user == op.actor), t.members);
    case Kick(other, target) => FilterMembers((m: MemberRow) => !(m.server == other && m.user == target), t.members);
    case Delete(other) =>
      IdIn(t);
      IdIn(t');
      FilterMembers((m: MemberRow) => m.server != other, t.members);
      FilterMembers((x: ServerRow) => x.id != other, t.servers);
    case _ =>
  }

  // ------------------------------------------------------------ the history of a channel

  /** Deleting another channel, or another channel's server, leaves the history of a channel alone. */
  lemma DeletionsSpareHistory(t: Tables, users: seq<int>, channel: int, other: int, server: int)
    requires TablesOk(t, users) && channel in ChannelIds(t.channels)
    ensures channel in ChannelIds(DeleteChannel(t, other).channels) ==> HistoryOf(DeleteChannel(t, other), channel) == HistoryOf(t, channel)
    ensures channel in ChannelIds(DeleteServer(t, server).channels) ==> HistoryOf(DeleteServer(t, server), channel) == HistoryOf(t, channel)
  {
    var gone := ChannelIds(ChannelsOf(t, server));
    IdIn(DeleteChannel(t, other));
    IdIn(DeleteServer(t, server));
    IdIn(t.(channels := ChannelsOf(t, server)));
    FilterMembers((c: ChannelRow) => c.id != other, t.channels);
    FilterMembers((c: ChannelRow) => c.server != server, t.channels);
    FilterMembers((c: ChannelRow) => c.server == server, t.channels);
    if channel in ChannelIds(DeleteChannel(t, other).channels) {
      FilterOfFilter((m: MessageRow) => m.channel == channel, (m: MessageRow) => m.channel != other, t.messages);
    }
    if channel in ChannelIds(DeleteServer(t, server).channels) {
      forall c, d | c in t.channels && d in t.channels && c.id == d.id ensures c == d {
        ChannelUnique(t.channels, c, d);
      }
      FilterOfFilter((m: MessageRow) => m.channel == channel, (m: MessageRow) => m.channel !in gone, t.messages);
    }
  }

  lemma PostExtendsHistory(t: Tables, row: MessageRow, channel: int)
    ensures HistoryOf(t.(messages := t.messages + [row]), channel) == HistoryOf(t, channel) + if row.channel == channel then [row] else []
  {}

  /** Requests that neither post nor delete leave the messages alone. */
  lemma MessagesStay(op: Op, t: Tables)
    requires !op.request.Post? && !op.request.Delete? && !op.request.DropChannel?
    ensures Perform(op, t).1.messages == t.messages
  {}

  /** While a channel exists its history only grows, by one row for each message posted to it by a known user. */
  lemma PerformExtendsHistory(op: Op, t: Tables, channel: int)
    requires TablesOk(t, op.users) && channel in ChannelIds(t.channels) && channel in ChannelIds(Perform(op, t).1.channels)
    ensures HistoryOf(Perform(op, t).1, channel)
            == HistoryOf(t, channel)
               + if op.request.Post? && op.request.channel == channel && op.actor in op.users
                 then [MessageRow(NextId(MessageIds(t.messages)), channel, op.actor, op.request.text)] else []
  {
    hide TablesOk, DeleteChannel, DeleteServer, NextId, Filter, CreateServer, CreateChannel, InsertMember, DeleteMember, ServerOfChannel;
    match op.request
    case Delete(server) => DeletionsSpareHistory(t, op.users, channel, 0, server);
    case DropChannel(other) => DeletionsSpareHistory(t, op.users, channel, other, 0);
    case Post(other, text) => PostExtendsHistory(t, MessageRow(NextId(MessageIds(t.messages)), other, op.actor, text), channel);
    case _ => MessagesStay(op, t);
  }

  /** Every channel of the one is a channel of the other. */
  ghost predicate ChannelsStay(t: Tables, t': Tables) {
    forall id :: id in ChannelIds(t.channels) ==> id in ChannelIds(t'.channels)
  }

  /** A deletion that takes no channel away takes no message away. */
  lemma DeletionsSpareMessages(t: Tables, users: seq<int>, other: int, server: int)
    requires TablesOk(t, users)
    ensures ChannelsStay(t, DeleteChannel(t, other)) ==> DeleteChannel(t, other).messages == t.messages
    ensures ChannelsStay(t, DeleteServer(t, server)) ==> DeleteServer(t, server).messages == t.messages
  {
    var gone := ChannelIds(ChannelsOf(t, server));
    IdIn(DeleteChannel(t, other));
    IdIn(DeleteServer(t, server));
    IdIn(t.(channels := ChannelsOf(t, server)));
    FilterMembers((c: ChannelRow) => c.id != other, t.channels);
    FilterMembers((c: ChannelRow) => c.server != server, t.channels);
    FilterMembers((c: ChannelRow) => c.server == server, t.channels);
    if ChannelsStay(t, DeleteChannel(t, other)) {
      FilterEverything((m: MessageRow) => m.channel != other, t.messages);
    }
    if ChannelsStay(t, DeleteServer(t, server)) {
      forall c, d | c in t.channels && d in t.channels && c.id == d.id ensures c == d {
        ChannelUnique(t.channels, c, d);
      }
      FilterEverything((m: MessageRow) => m.channel !in gone, t.messages);
    }
  }

  /** As long as no channel goes, the whole table of messages only grows, by one row for each message that can be stored. */
  lemma PerformExtendsMessages(op: Op, t: Tables)
    requires TablesOk(t, op.users) && ChannelsStay(t, Perform(op, t).1)
    ensures Perform(op, t).1.messages
            == t.messages
               + if op.request.Post? && op.request.channel in ChannelIds(t.channels) && op.actor in op.users
                 then [MessageRow(NextId(MessageIds(t.messages)), op.request.channel, op.actor, op.request.text)] else []
  {
    hide TablesOk, DeleteChannel, DeleteServer, NextId, Filter, CreateServer, CreateChannel, InsertMember, DeleteMember, ServerOfChannel, ChannelsStay;
    match op.request
    case Delete(server) => DeletionsSpareMessages(t, op.users, 0, server);
    case DropChannel(other) => DeletionsSpareMessages(t, op.users, other, 0);
    case Post(_, _) =>
    case _ => MessagesStay(op, t);
  }

  // ------------------------------------------------------------ who may do what

  /** A request that is not done leaves the tables alone. */
  lemma RefusedChangesNothing(op: Op, t: Tables)
    requires TablesOk(t, op.users) && (op.authenticated ==> op.actor in op.users) && Perform(op, t).0 != Done
    ensures Perform(op, t).1 == t
  {
    if op.request.Create? && op.authenticated {
      NewServerHasItsCreatorOnly(t, op.users, op.request.name, op.actor);
    }
  }

  /** A request that is done has had its effect. */
  lemma DoneHasItsEffect(op: Op, t: Tables)
    requires TablesOk(t, op.users) && Perform(op, t).0 == Done
    ensures var t' := Perform(op, t).1;
            match op.request
            case Create(name) => exists x :: x in t'.servers && x.name == name && IsAdmin(t', x.id, op.actor)
            case Join(server) => IsMember(t', server, op.actor) && !IsMember(t, server, op.actor)
            case Leave(server) => !IsMember(t', server, op.actor)
            case Delete(server) => server !in ServerIds(t'.servers) && IsAdmin(t, server, op.actor)
            case Kick(server, user) => !IsMember(t', server, user) && IsMember(t, server, user) && IsAdmin(t, server, op.actor)
            case AddChannel(server, name) => (exists c :: c in t'.channels && c.server == server && c.name == name) && IsAdmin(t, server, op.actor)
            case DropChannel(channel) => channel !in ChannelIds(t'.channels) && channel in ChannelIds(t.channels)
            case Post(channel, text) => channel in ChannelIds(t.channels) && op.actor in op.users
  {
    var t' := Perform(op, t).1;
    match op.request
    case Create(name) => assert ServerRow(NextId(ServerIds(t.servers)), name) in t'.servers;
    case Leave(server) => FilterMembers((m: MemberRow) => !(m.server == server && m.user == op.actor), t.members);
    case Kick(server, user) => FilterMembers((m: MemberRow) => !(m.server == server && m.user == user), t.members);
    case Delete(server) =>
      FilterMembers((x: ServerRow) => x.id != server, t.servers);
      IdIn(t');
    case AddChannel(server, name) => assert ChannelRow(NextId(ChannelIds(t.channels)), server, name) in t'.channels;
    case DropChannel(channel) =>
      FilterMembers((c: ChannelRow) => c.id != channel, t.channels);
      IdIn(t');
    case _ =>
  }

  /** The rows of a server's other members. */
  function OtherMembers(t: Tables, server: int, user: int): seq<MemberRow> {
    Filter((m: MemberRow) => m.server == server && m.user != user, t.members)
  }

  /** What only an administrator can change: the server, its channels, and the membership of others. */
  ghost predicate Spared(t: Tables, t': Tables, server: int, user: int) {
    && server in ServerIds(t'.servers)
    && ChannelsOf(t', server) == ChannelsOf(t, server)
    && OtherMembers(t', server, user) == OtherMembers(t, server, user)
  }

  lemma RowsAppended(t: Tables, row: MemberRow, server: int, user: int)
    requires row.server != server || row.user == user
    ensures OtherMembers(t.(members := t.members + [row]), server, user) == OtherMembers(t, server, user)
  {}

  lemma MemberGone(t: Tables, other: int, gone: int, server: int, user: int)
    requires other != server || gone == user
    ensures OtherMembers(DeleteMember(t, other, gone), server, user) == OtherMembers(t, server, user)
  {
    FilterOfFilter((m: MemberRow) => m.server == server && m.user != user, (m: MemberRow) => !(m.server == other && m.user == gone), t.members);
  }

  lemma ServerGone(t: Tables, other: int, server: int, user: int)
    requires other != server && server in ServerIds(t.servers)
    ensures Spared(t, DeleteServer(t, other), server, user)
  {
    IdIn(t);
    IdIn(DeleteServer(t, other));
    FilterMembers((x: ServerRow) => x.id != other, t.servers);
    FilterOfFilter((c: ChannelRow) => c.server == server, (c: ChannelRow) => c.server != other, t.channels);
    FilterOfFilter((m: MemberRow) => m.server == server && m.user != user, (m: MemberRow) => m.server != other, t.members);
  }

  lemma ChannelElsewhere(t: Tables, other: int, name: string, server: int)
    requires other != server
    ensures ChannelsOf(CreateChannel(t, other, name).1, server) == ChannelsOf(t, server)
  {}

  lemma ChannelGone(t: Tables, channel: int, server: int)
    requires Pairwise(ChannelsDiffer, t.channels) && channel in ChannelIds(t.channels) && ServerOfChannel(t.channels, channel) != server
    ensures ChannelsOf(DeleteChannel(t, channel), server) == ChannelsOf(t, server)
  {
    forall c | c in t.channels && c.id == channel ensures c.server != server {
      var d :| d in t.channels && d.id == channel && d.server == ServerOfChannel(t.channels, channel);
      ChannelUnique(t.channels, c, d);
    }
    FilterOfFilter((c: ChannelRow) => c.server == server, (c: ChannelRow) => c.id != channel, t.channels);
  }

  lemma NewServerSpares(t: Tables, users: seq<int>, name: string, actor: int, server: int)
    requires server in ServerIds(t.servers)
    ensures Spared(t, CreateServer(t, users, name, actor).1, server, actor)
  {
    var id := NextId(ServerIds(t.servers));
    ServerIdsAppend(t.servers, ServerRow(id, name));
    RowsAppended(t, MemberRow(id, actor, true), server, actor);
    hide Filter;
  }

  /** Nobody but an administrator of a server can delete it, change its channels or the membership of anyone else. */
  lemma OutsidersChangeNothing(op: Op, t: Tables, server: int)
    requires Pairwise(ChannelsDiffer, t.channels) && server in ServerIds(t.servers) && !IsAdmin(t, server, op.actor)
    ensures Spared(t, Perform(op, t).1, server, op.actor)
  {
    hide DeleteServer, DeleteMember, DeleteChannel, CreateChannel, CreateServer, ServerOfChannel, Filter;
    match op.request
    case Create(name) => NewServerSpares(t, op.users, name, op.actor, server);
    case Join(other) => RowsAppended(t, MemberRow(other, op.actor, false), server, op.actor);
    case Leave(other) =>
      MemberGone(t, other, op.actor, server, op.actor);
      KeepsServers(t, other, op.actor);
    case Delete(other) =>
      if IsAdmin(t, other, op.actor) {
        ServerGone(t, other, server, op.actor);
      }
    case Kick(other, user) =>
      if IsAdmin(t, other, op.actor) {
        MemberGone(t, other, user, server, op.actor);
        KeepsServers(t, other, user);
      }
    case AddChannel(other, name) =>
      if IsAdmin(t, other, op.actor) {
        ChannelElsewhere(t, other, name, server);
        KeepsMembers(t, other, name);
      }
    case DropChannel(channel) =>
      if channel in ChannelIds(t.channels) && IsAdmin(t, ServerOfChannel(t.channels, channel), op.actor) {
        ChannelGone(t, channel, server);
        DropKeepsMembers(t, channel);
      }
    case Post(_, _) =>
  }

  lemma KeepsServers(t: Tables, server: int, user: int)
    ensures DeleteMember(t, server, user).servers == t.servers && DeleteMember(t, server, user).channels == t.channels
  {}

  lemma KeepsMembers(t: Tables, server: int, name: string)
    ensures CreateChannel(t, server, name).1.members == t.members && CreateChannel(t, server, name).1.servers == t.servers
  {}

  lemma DropKeepsMembers(t: Tables, channel: int)
    ensures DeleteChannel(t, channel).members == t.members && DeleteChannel(t, channel).servers == t.servers
  {}
}
