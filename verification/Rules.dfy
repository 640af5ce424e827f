/**
 When a request about servers, channels and members is done, why it is refused otherwise, and exactly what
 it leaves: over the rows of the tables alone.
 */
module Rules {
  import opened Names
  import opened Store

  // ------------------------------------------------------------ the rules

  ghost predicate HasServer(t: Tables, server: int) {
    exists x :: x in t.servers && x.id == server
  }

  ghost predicate HasMember(t: Tables, server: int, user: int) {
    exists m :: m in t.members && m.server == server && m.user == user
  }

  ghost predicate HasAdmin(t: Tables, server: int, user: int) {
    exists m :: m in t.members && m.server == server && m.user == user && m.admin
  }

  ghost predicate HasChannel(t: Tables, channel: int) {
    exists c :: c in t.channels && c.id == channel
  }

  /** The request names what it is about: a name that is not empty, ids that are positive. */
  predicate WellFormed(r: Request) {
    match r
    case Create(name) => name != ""
    case Join(server) => server > 0
    case Leave(server) => server > 0
    case Delete(server) => server > 0
    case Kick(server, user) => server > 0 && user > 0
    case _ => true
  }

  /** What the request is about is there. */
  ghost predicate Found(r: Request, t: Tables) {
    r.DropChannel? ==> HasChannel(t, r.channel)
  }

  /** Whoever asks is logged in, and an administrator where only administrators may ask. */
  ghost predicate Entitled(op: Op, t: Tables) {
    match op.request
    case Create(_) => op.authenticated
    case Join(_) => op.authenticated
    case Leave(_) => op.authenticated
    case Delete(server) => op.authenticated && HasAdmin(t, server, op.actor)
    case Kick(server, _) => op.authenticated && HasAdmin(t, server, op.actor)
    case AddChannel(server, _) => HasAdmin(t, server, op.actor)
    case DropChannel(channel) => exists c :: c in t.channels && c.id == channel && HasAdmin(t, c.server, op.actor)
    case Post(_, _) => true
  }

  /** The tables have room for it: free names, rows that are there or not there yet. */
  ghost predicate Fitting(op: Op, t: Tables) {
    match op.request
    case Create(name) => forall x :: x in t.servers ==> x.name != name
    case Join(server) => HasServer(t, server) && !HasMember(t, server, op.actor)
    case Kick(server, user) => HasMember(t, server, user)
    case AddChannel(server, name) => forall c :: c in t.channels && c.server == server ==> c.name != name
    case Post(channel, _) => HasChannel(t, channel) && op.actor in op.users
    case _ => true
  }

  ghost predicate Allowed(op: Op, t: Tables) {
    WellFormed(op.request) && Found(op.request, t) && Entitled(op, t) && Fitting(op, t)
  }

  /** How many members a server has: the users with a membership of it. */
  function Size(t: Tables, server: int): nat {
    |set m | m in t.members && m.server == server :: m.user|
  }

  // ------------------------------------------------------------ what is left

  /** The id of a new row: one above the largest, or 1 in an empty table. */
  ghost predicate IsNewId(ids: seq<int>, id: int) {
    (forall i :: i in ids ==> i < id) && (id == 1 || id - 1 in ids)
  }

  /** Exactly the membership of the user in the server goes, if there is one. */
  ghost predicate LosesMember(t: Tables, t': Tables, server: int, user: int) {
    if HasMember(t, server, user)
    then exists k :: 0 <= k < |t.members| && t.members[k].server == server && t.members[k].user == user
                     && t' == t.(members := Without(t.members, k))
    else t' == t
  }

  /** What a request that is done leaves. */
  ghost predicate Leaves(op: Op, t: Tables, t': Tables) {
    match op.request
    case Create(name) =>
      exists id :: IsNewId(ServerIds(t.servers), id)
                   && t' == t.(servers := t.servers + [ServerRow(id, name)], members := t.members + [MemberRow(id, op.actor, true)])
    case Join(server) => t' == t.(members := t.members + [MemberRow(server, op.actor, false)])
    case Leave(server) => LosesMember(t, t', server, op.actor)
    case Kick(server, user) => LosesMember(t, t', server, user)
    case Delete(server) =>
      && (exists k :: 0 <= k < |t.servers| && t.servers[k].id == server && t'.servers == Without(t.servers, k))
      && (forall m :: m in t'.members <==> m in t.members && m.server != server)
      && (forall c :: c in t'.channels <==> c in t.channels && c.server != server)
      && (forall m :: m in t'.messages <==> m in t.messages && exists c :: c in t.channels && c.id == m.channel && c.server != server)
    case AddChannel(server, name) =>
      exists id :: IsNewId(ChannelIds(t.channels), id) && t' == t.(channels := t.channels + [ChannelRow(id, server, name)])
    case DropChannel(channel) =>
      && t' == t.(channels := t'.channels, messages := t'.messages)
      && (exists k :: 0 <= k < |t.channels| && t.channels[k].id == channel && t'.channels == Without(t.channels, k))
      && (forall m :: m in t'.messages <==> m in t.messages && m.channel != channel)
    case Post(channel, text) =>
      exists id :: IsNewId(MessageIds(t.messages), id) && t' == t.(messages := t.messages + [MessageRow(id, channel, op.actor, text)])
  }

  // ------------------------------------------------------------ rows

  lemma IsNew(ids: seq<int>)
    ensures IsNewId(ids, NextId(ids))
  {}

  lemma Memberships(t: Tables, server: int, user: int)
    ensures IsMember(t, server, user) <==> HasMember(t, server, user)
    ensures IsAdmin(t, server, user) <==> HasAdmin(t, server, user)
  {
    forall m | m in t.members && m.server == server && m.user == user ensures m == MemberRow(server, user, m.admin) {}
  }

  lemma Servers(t: Tables, server: int, channel: int)
    ensures server in ServerIds(t.servers) <==> HasServer(t, server)
    ensures channel in ChannelIds(t.channels) <==> HasChannel(t, channel)
  {
    IdIn(t);
  }

  /** Is the name free? */
  lemma NameIsFree(t: Tables, name: string)
    ensures name !in Map((x: ServerRow) => x.name, t.servers) <==> forall x :: x in t.servers ==> x.name != name
  {
    var names := Map((x: ServerRow) => x.name, t.servers);
    if name in names {
      var k :| 0 <= k < |names| && names[k] == name;
      assert t.servers[k] in t.servers;
    }
    forall x | x in t.servers ensures x.name in names {
      var k :| 0 <= k < |t.servers| && t.servers[k] == x;
      assert names[k] == x.name;
    }
  }

  lemma ChannelRowOf(t: Tables, channel: int, user: int)
    requires Pairwise(ChannelsDiffer, t.channels) && HasChannel(t, channel)
    ensures IsAdmin(t, ServerOfChannel(t.channels, channel), user)
            <==> exists c :: c in t.channels && c.id == channel && HasAdmin(t, c.server, user)
  {
    Servers(t, 0, channel);
    var d :| d in t.channels && d.id == channel && d.server == ServerOfChannel(t.channels, channel);
    Memberships(t, d.server, user);
    forall c | c in t.channels && c.id == channel ensures c == d {
      ChannelUnique(t.channels, c, d);
    }
    hide ServerOfChannel, HasAdmin, IsAdmin;
  }

  /** Counting the rows of a server is counting its members, since nobody is a member twice. */
  lemma RowsCountMembers(t: Tables, users: seq<int>, server: int)
    requires TablesOk(t, users)
    ensures |Filter((m: MemberRow) => m.server == server, t.members)| == Size(t, server)
  {
    var keep := (m: MemberRow) => m.server == server;
    forall i, j | 0 <= i < j < |t.members| ensures t.members[i] != t.members[j] {
      assert MembersDiffer(t.members[i], t.members[j]);
    }
    FilterCounts(keep, t.members);
    var rows, ids := KeptOf(keep, t.members), set m | m in t.members && m.server == server :: m.user;
    forall a, b | a in rows && b in rows && a.user == b.user ensures a == b {
      SameMembership(t.members, a, b);
    }
    hide Filter, Pairwise;
    assert forall m :: m in rows <==> m in t.members && m.server == server;
    hide KeptOf;
    forall u | u in ids ensures exists m :: m in rows && m.user == u {
      var m :| m in t.members && m.server == server && m.user == u;
      assert m in rows;
    }
    assert ids == set m | m in rows :: ((m: MemberRow) => m.user)(m);
    SameSize(rows, ids, (m: MemberRow) => m.user);
  }

  lemma SameMembership(members: seq<MemberRow>, a: MemberRow, b: MemberRow)
    requires Pairwise(MembersDiffer, members) && a in members && b in members && a.server == b.server && a.user == b.user
    ensures a == b
  {
    var i, j :| 0 <= i < |members| && members[i] == a && 0 <= j < |members| && members[j] == b;
    var differ := i != j && (MembersDiffer(members[i], members[j]) || MembersDiffer(members[j], members[i]));
  }

  /** A set and its image under a map that keeps its elements apart have the same size. */
  lemma {:induction false} SameSize<T(!new), U>(a: set<T>, b: set<U>, f: T -> U)
    requires (forall x, y :: x in a && y in a && f(x) == f(y) ==> x == y) && b == set x | x in a :: f(x)
    ensures |a| == |b|
    decreases |a|
  {
    if a != {} {
      var x :| x in a;
      assert b - {f(x)} == set y | y in a - {x} :: f(y);
      SameSize(a - {x}, b - {f(x)}, f);
    }
  }

  // ------------------------------------------------------------ the requests follow the rules

  /** The rows that the checks look for. */
  lemma ChecksAreRows(op: Op, t: Tables)
    requires TablesOk(t, op.users)
    ensures match op.request
            case Create(name) => name !in Map((x: ServerRow) => x.name, t.servers) <==> forall x :: x in t.servers ==> x.name != name
            case Join(server) => (server in ServerIds(t.servers) <==> HasServer(t, server)) && (IsMember(t, server, op.actor) <==> HasMember(t, server, op.actor))
            case Delete(server) => IsAdmin(t, server, op.actor) <==> HasAdmin(t, server, op.actor)
            case Kick(server, user) => (IsAdmin(t, server, op.actor) <==> HasAdmin(t, server, op.actor)) && (IsMember(t, server, user) <==> HasMember(t, server, user))
            case AddChannel(server, name) => IsAdmin(t, server, op.actor) <==> HasAdmin(t, server, op.actor)
            case DropChannel(channel) => channel in ChannelIds(t.channels) <==> HasChannel(t, channel)
            case Post(channel, _) => channel in ChannelIds(t.channels) <==> HasChannel(t, channel)
            case Leave(_) => true
  {
    match op.request
    case Create(name) => NameIsFree(t, name);
    case Join(server) =>
      Servers(t, server, 0);
      Memberships(t, server, op.actor);
    case Delete(server) => Memberships(t, server, op.actor);
    case Kick(server, user) =>
      Memberships(t, server, op.actor);
      Memberships(t, server, user);
    case AddChannel(server, name) => Memberships(t, server, op.actor);
    case DropChannel(channel) => Servers(t, 0, channel);
    case Post(channel, _) => Servers(t, 0, channel);
    case Leave(_) =>
  }

  /** A row of an administrator stands for a server that is there. */
  lemma AdminsServerIsThere(t: Tables, users: seq<int>, server: int, user: int)
    requires TablesOk(t, users) && IsAdmin(t, server, user)
    ensures server in ServerIds(t.servers)
  {}

  /**
   A request is done exactly when it is well-formed, what it is about is there, whoever asks may ask, and the
   tables have room for it; otherwise the code says which of these, in this order, does not hold.
   */
  lemma DoneExactlyWhenAllowed(op: Op, t: Tables)
    requires TablesOk(t, op.users) && (op.authenticated ==> op.actor in op.users)
    ensures Perform(op, t).0 == if !WellFormed(op.request) then Invalid
                                else if !Found(op.request, t) then NotFound
                                else if !Entitled(op, t) then Unauthorized
                                else if !Fitting(op, t) then DbError
                                else Done
  {
    hide TablesOk, IsAdmin, IsMember, HasAdmin, HasMember, HasServer, HasChannel, ServerOfChannel, ServerIds, ChannelIds;
    ChecksAreRows(op, t);
    match op.request
    case Create(name) => CreateCode(t, op.users, name, op.actor);
    case AddChannel(server, name) =>
      if IsAdmin(t, server, op.actor) {
        AdminsServerIsThere(t, op.users, server, op.actor);
      }
    case DropChannel(channel) =>
      if HasChannel(t, channel) {
        GoodChannelRows(t, op.users);
        ChannelRowOf(t, channel, op.actor);
      }
    case _ =>
  }

  lemma GoodChannelRows(t: Tables, users: seq<int>)
    requires TablesOk(t, users)
    ensures Pairwise(ChannelsDiffer, t.channels)
  {}

  lemma CreateCode(t: Tables, users: seq<int>, name: string, user: int)
    requires TablesOk(t, users)
    ensures user in users ==> (CreateServer(t, users, name, user).0 == 0 <==> name !in Map((x: ServerRow) => x.name, t.servers))
  {
    if name !in Map((x: ServerRow) => x.name, t.servers) {
      AddServerKeeps(t, users, name);
      ServerIdsAppend(t.servers, ServerRow(NextId(ServerIds(t.servers)), name));
    }
  }

  // ------------------------------------------------------------ and leave what they should

  lemma MemberGoes(t: Tables, users: seq<int>, server: int, user: int)
    requires TablesOk(t, users)
    ensures LosesMember(t, DeleteMember(t, server, user), server, user)
  {
    var keep := (m: MemberRow) => !(m.server == server && m.user == user);
    if HasMember(t, server, user) {
      var m :| m in t.members && m.server == server && m.user == user;
      var k :| 0 <= k < |t.members| && t.members[k] == m;
      forall i | 0 <= i < |t.members| && i != k ensures keep(t.members[i]) {
        assert MembersDiffer(t.members[if i < k then i else k], t.members[if i < k then k else i]);
      }
      FilterSkipsOne(keep, t.members, k);
    } else {
      FilterEverything(keep, t.members);
    }
    hide Filter;
  }

  lemma ServerGoes(t: Tables, users: seq<int>, server: int)
    requires TablesOk(t, users) && server in ServerIds(t.servers)
    ensures exists k :: 0 <= k < |t.servers| && t.servers[k].id == server && DeleteServer(t, server).servers == Without(t.servers, k)
  {
    var keep := (x: ServerRow) => x.id != server;
    var k :| 0 <= k < |t.servers| && ServerIds(t.servers)[k] == server;
    forall i | 0 <= i < |t.servers| && i != k ensures keep(t.servers[i]) {
      assert ServersDiffer(t.servers[if i < k then i else k], t.servers[if i < k then k else i]);
    }
    FilterSkipsOne(keep, t.servers, k);
    hide Filter;
  }

  lemma ChannelGoes(t: Tables, users: seq<int>, channel: int)
    requires TablesOk(t, users) && channel in ChannelIds(t.channels)
    ensures var t' := DeleteChannel(t, channel);
            && (exists k :: 0 <= k < |t.channels| && t.channels[k].id == channel && t'.channels == Without(t.channels, k))
            && (forall m :: m in t'.messages <==> m in t.messages && m.channel != channel)
  {
    var keep := (c: ChannelRow) => c.id != channel;
    var k :| 0 <= k < |t.channels| && ChannelIds(t.channels)[k] == channel;
    forall i | 0 <= i < |t.channels| && i != k ensures keep(t.channels[i]) {
      assert ChannelsDiffer(t.channels[if i < k then i else k], t.channels[if i < k then k else i]);
    }
    FilterSkipsOne(keep, t.channels, k);
    FilterMembers((m: MessageRow) => m.channel != channel, t.messages);
    hide Filter;
  }

  /** A request that is done leaves exactly the rows it should, and one that is not leaves the tables alone. */
  lemma TablesAfter(op: Op, t: Tables)
    requires TablesOk(t, op.users) && (op.authenticated ==> op.actor in op.users)
    ensures var (code, t') := Perform(op, t); if code == Done then Leaves(op, t, t') else t' == t
  {
    RefusedIf(op, t);
    if Perform(op, t).0 == Done {
      DoneLeaves(op, t);
    }
    hide Perform, Leaves;
  }

  lemma RefusedIf(op: Op, t: Tables)
    requires TablesOk(t, op.users) && (op.authenticated ==> op.actor in op.users)
    ensures Perform(op, t).0 != Done ==> Perform(op, t).1 == t
  {
    if Perform(op, t).0 != Done {
      RefusedChangesNothing(op, t);
    }
    hide Perform;
  }

  /** The new rows, each with its new id. */
  lemma RowsAdded(op: Op, t: Tables)
    requires (op.request.Create? || op.request.AddChannel? || op.request.Post?) && Perform(op, t).0 == Done
    ensures Leaves(op, t, Perform(op, t).1)
  {
    hide IsNewId, NextId, IsMember, IsAdmin;
    IsNew(ServerIds(t.servers));
    IsNew(ChannelIds(t.channels));
    IsNew(MessageIds(t.messages));
    hide ServerIds, ChannelIds, MessageIds;
    var t' := Perform(op, t).1;
    match op.request
    case Create(name) =>
      var id := NextId(ServerIds(t.servers));
      assert t' == t.(servers := t.servers + [ServerRow(id, name)], members := t.members + [MemberRow(id, op.actor, true)]);
    case AddChannel(server, name) =>
      assert t' == t.(channels := t.channels + [ChannelRow(NextId(ChannelIds(t.channels)), server, name)]);
    case Post(channel, text) =>
      assert t' == t.(messages := t.messages + [MessageRow(NextId(MessageIds(t.messages)), channel, op.actor, text)]);
  }

  lemma DoneLeaves(op: Op, t: Tables)
    requires TablesOk(t, op.users) && Perform(op, t).0 == Done
    ensures Leaves(op, t, Perform(op, t).1)
  {
    hide LosesMember, DeleteMember, Without, IsNewId, NextId, DeleteServer, DeleteChannel, TablesOk, IsAdmin, IsMember, CreateServer, CreateChannel, SaveMessage;
    match op.request
    case Join(server) =>
    case Leave(server) => MemberGoes(t, op.users, server, op.actor);
    case Kick(server, user) => MemberGoes(t, op.users, server, user);
    case Delete(server) =>
      AdminsServerIsThere(t, op.users, server, op.actor);
      ServerGoes(t, op.users, server);
      DeleteServerExactly(t, op.users, server);
    case DropChannel(channel) =>
      ChannelGoes(t, op.users, channel);
      DropKeepsMembers(t, channel);
    case _ => RowsAdded(op, t);
  }
}
