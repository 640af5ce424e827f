/** Servers, channels and administrators over whole runs of the server. */
module Lifecycle {
  import opened Names
  import opened Protocol
  import opened Friends
  import Store
  import opened Rules
  import opened Listing
  import opened Server
  import opened Invariants

  // ------------------------------------------------------------ events as requests to the tables

  /** The request to the tables behind an event: one or none. */
  function TableOp(s: State, e: Event): (ops: seq<Store.Op>)
    requires Enabled(s, e)
    ensures |ops| <= 1
  {
    if !e.Request? then []
    else
      var c, q := s.sessions[e.i], e.packet.payload;
      if q.Server? && IsTableAction(q.action) then [OpOf(s, c, RequestOf(q))]
      else if q.Channel? && q.action == CHANNEL_MESSAGE then [OpOf(s, c, Store.Post(q.channel, q.text))]
      else if q.Channel? && q.action == CHANNEL_CREATE then [OpOf(s, c, Store.AddChannel(q.server, q.name))]
      else if q.Channel? && q.action == CHANNEL_DELETE then [OpOf(s, c, Store.DropChannel(q.channel))]
      else []
  }

  /** An event changes the tables by its request and in no other way. */
  lemma StepPerforms(s: State, e: Event)
    requires Enabled(s, e)
    ensures var ops := TableOp(s, e);
            Step(s, e).tables == if ops == [] then s.tables else Store.Perform(ops[0], s.tables).1
    ensures forall op :: op in TableOp(s, e) ==> op.users == s.Ids()
  {
    hide Store.Perform, NotifyJoined, NotifyUsers, NotifyFriends, Perform;
  }

  // ------------------------------------------------------------ administrators

  /** A server that has lost its administrator keeps its channels, and nobody ever administers or deletes it. */
  lemma {:induction false} OrphanStaysFrozen(s: State, es: seq<Event>, server: int)
    requires Good(s) && Runs(s, es) && Store.Orphaned(s.tables, server)
    ensures Store.Frozen(s.tables, Run(s, es).tables, server)
    decreases |es|
  {
    hide Good, Step, Store.Perform, TableOp;
    if es != [] {
      var s1, ops := Step(s, es[0]), TableOp(s, es[0]);
      StepPerforms(s, es[0]);
      GoodChannels(s);
      if ops != [] {
        Store.PerformKeepsOrphan(ops[0], s.tables, server);
      }
      StepKeepsGood(s, es[0]);
      OrphanStaysFrozen(s1, es[1..], server);
    }
  }

  lemma AdminIsOnly(t: Store.Tables, users: seq<int>, server: int, user: int)
    requires Store.TablesOk(t, users) && Store.IsAdmin(t, server, user)
    ensures Store.OnlyAdmin(t, server, user) && server in Store.ServerIds(t.servers)
  {}

  /** Once the administrator has left or was kicked, the server is an orphan for the rest of its days. */
  lemma LosingTheAdminIsFinal(s: State, e: Event, es: seq<Event>, server: int, user: int)
    requires Good(s) && Enabled(s, e) && Runs(Step(s, e), es)
    requires Store.IsAdmin(s.tables, server, user) && !Store.IsMember(Step(s, e).tables, server, user)
    requires server in Store.ServerIds(Step(s, e).tables.servers)
    ensures Store.Frozen(Step(s, e).tables, Run(Step(s, e), es).tables, server)
  {
    hide Good, Step, Run, Store.Perform, TableOp;
    var ops, t' := TableOp(s, e), Step(s, e).tables;
    GoodChannels(s);
    AdminIsOnly(s.tables, s.Ids(), server, user);
    StepPerforms(s, e);
    if ops != [] {
      Store.PerformKeepsOnlyAdmin(ops[0], s.tables, server, user);
    }
    forall m | m in t'.members && m.server == server ensures !m.admin {
      assert m.admin ==> m == Store.MemberRow(server, user, true);
    }
    StepKeepsGood(s, e);
    OrphanStaysFrozen(Step(s, e), es, server);
  }

  lemma GoodChannels(s: State)
    requires Good(s)
    ensures Store.TablesOk(s.tables, s.Ids()) && Pairwise(Store.ChannelsDiffer, s.tables.channels)
  {}

  /** The server is there in every state of the run. */
  predicate ServerLives(s: State, es: seq<Event>, server: int)
    requires Runs(s, es)
    decreases |es|
  {
    server in Store.ServerIds(s.tables.servers) && (es == [] || ServerLives(Step(s, es[0]), es[1..], server))
  }

  lemma {:induction false} OnlyAdminStays(s: State, es: seq<Event>, server: int, user: int)
    requires Runs(s, es) && Store.OnlyAdmin(s.tables, server, user) && ServerLives(s, es, server)
    ensures Store.OnlyAdmin(Run(s, es).tables, server, user)
    decreases |es|
  {
    hide Step, Store.Perform, TableOp;
    if es != [] {
      var ops := TableOp(s, es[0]);
      StepPerforms(s, es[0]);
      if ops != [] {
        Store.PerformKeepsOnlyAdmin(ops[0], s.tables, server, user);
      }
      OnlyAdminStays(Step(s, es[0]), es[1..], server, user);
    }
  }

  /**
   Creation by a logged-in connection under a free name makes its user the administrator of a server
   that has no other member and no channel; for as long as the server lives nobody else administers it.
   */
  lemma CreatorIsTheOnlyAdmin(s: State, i: nat, p: Packet, hashOk: bool, es: seq<Event>)
    requires Good(s) && i < |s.sessions| && s.sessions[i].authenticated
    requires p.payload.Server? && p.payload.action == SERVER_CREATE && p.payload.name != ""
    requires forall x :: x in s.tables.servers ==> x.name != p.payload.name
    requires Runs(Step(s, Request(i, p, hashOk)), es)
    ensures var s1, id, user := Step(s, Request(i, p, hashOk)), NextId(Store.ServerIds(s.tables.servers)), s.sessions[i].id;
            && Store.ServerRow(id, p.payload.name) in s1.tables.servers
            && (forall m :: m in s1.tables.members && m.server == id <==> m == Store.MemberRow(id, user, true))
            && (forall c :: c in s1.tables.channels ==> c.server != id)
            && (ServerLives(s1, es, id) ==> Store.OnlyAdmin(Run(s1, es).tables, id, user))
  {
    var s1, id, user := Step(s, Request(i, p, hashOk)), NextId(Store.ServerIds(s.tables.servers)), s.sessions[i].id;
    CreationStep(s, i, p, hashOk);
    hide Step, Run, Good;
    if ServerLives(s1, es, id) {
      OnlyAdminStays(s1, es, id, user);
    }
  }

  lemma CreationStep(s: State, i: nat, p: Packet, hashOk: bool)
    requires Good(s) && i < |s.sessions| && s.sessions[i].authenticated
    requires p.payload.Server? && p.payload.action == SERVER_CREATE && p.payload.name != ""
    requires forall x :: x in s.tables.servers ==> x.name != p.payload.name
    ensures var t1, id, user := Step(s, Request(i, p, hashOk)).tables, NextId(Store.ServerIds(s.tables.servers)), s.sessions[i].id;
            && Store.ServerRow(id, p.payload.name) in t1.servers
            && (forall m :: m in t1.members && m.server == id <==> m == Store.MemberRow(id, user, true))
            && (forall c :: c in t1.channels ==> c.server != id)
  {
    StepPerforms(s, Request(i, p, hashOk));
    assert s.sessions[i] in s.sessions;
    Store.NewServerHasItsCreatorOnly(s.tables, s.Ids(), p.payload.name, s.sessions[i].id);
    hide Step, NextId;
  }

  // ------------------------------------------------------------ answers

  /** What the answer to a request about a server says: it was done, or nothing was changed. */
  lemma ServerAnswersTellTheTruth(s: State, i: nat, p: Packet)
    requires Good(s) && i < |s.sessions| && p.payload.Server? && IsTableAction(p.payload.action)
    ensures var s', c, q := HandleServer(s, i, p), s.sessions[i], p.payload;
            var code := Store.Perform(OpOf(s, c, RequestOf(q)), s.tables).0;
            && s.sent + [Sent(c.fd, ServerResponse(q.action, CodeOf(code)))] <= s'.sent
            && (CodeOf(code) == RESP_OK <==> code.Done?)
            && (CodeOf(code) != RESP_OK ==> s'.tables == s.tables)
  {
    var c, q := s.sessions[i], p.payload;
    var op := OpOf(s, c, RequestOf(q));
    assert c in s.sessions;
    GoodChannels(s);
    if Store.Perform(op, s.tables).0 != Store.Done {
      Store.RefusedChangesNothing(op, s.tables);
    }
    hide Store.Perform, Good, NotifyMembers;
  }

  /** The answer to the creation of a channel carries the id and the name of the row, or no id and a reason. */
  lemma ChannelAnswersTellTheTruth(s: State, i: nat, p: Packet)
    requires Good(s) && i < |s.sessions| && p.payload.Channel? && p.payload.action == CHANNEL_CREATE
    ensures var s', c, q := HandleChannel(s, i, p), s.sessions[i], p.payload;
            exists status, id, name ::
              && s'.sent == s.sent + [Sent(c.fd, Plain(Channel(CHANNEL_CREATE, q.server, status, id, name, 0, "")))]
              && (status == RESP_OK <==> s'.tables != s.tables)
              && (status == RESP_OK ==>
                    && Store.ChannelRow(id, q.server, q.name) in s'.tables.channels && id !in Store.ChannelIds(s.tables.channels)
                    && forall m :: m in s'.tables.messages ==> m.channel != id)
  {
    var s', c, q := HandleChannel(s, i, p), s.sessions[i], p.payload;
    var op := OpOf(s, c, Store.AddChannel(q.server, q.name));
    var code := Store.Perform(op, s.tables).0;
    var id := if code.Done? then NextId(Store.ChannelIds(s.tables.channels)) else 0;
    var name := if code.Done? then Truncated(q.name, NAME_LEN) else "";
    assert s'.sent == s.sent + [Sent(c.fd, Plain(Channel(CHANNEL_CREATE, q.server, CodeOf(code), id, name, 0, "")))];
    if code.Done? {
      assert |s'.tables.channels| == |s.tables.channels| + 1;
      GoodChannels(s);
      Store.NewChannelIsEmpty(s.tables, s.Ids(), q.server, q.name);
    }
    hide Good, NextId;
  }

  // ------------------------------------------------------------ the lists

  lemma {:induction false} SortedItems(items: seq<Item>)
    ensures forall i :: i in SortBy((x: Item) => x.name, items) <==> i in items
    ensures SortedBy((x: Item) => x.name, SortBy((x: Item) => x.name, items))
    ensures |SortBy((x: Item) => x.name, items)| == |items|
  {
    SortByPermutes((x: Item) => x.name, items);
    SortBySorts((x: Item) => x.name, items);
    forall i ensures i in SortBy((x: Item) => x.name, items) <==> i in items {
      assert i in multiset(items) <==> i in items;
    }
    hide SortBy;
  }

  /** A list made from kept rows has exactly an item for each, by name. */
  lemma ListedRows<T(!new)>(make: T -> Item, keep: T -> bool, table: seq<T>, i: Item)
    ensures var r := SortBy((x: Item) => x.name, Map(make, Filter(keep, table)));
            && (i in r <==> exists x :: x in table && keep(x) && i == make(x))
            && SortedBy((x: Item) => x.name, r) && |r| == |Filter(keep, table)|
  {
    var kept := Filter(keep, table);
    var items := Map(make, kept);
    FilterMembers(keep, table);
    SortedItems(items);
    hide SortBy, Filter, SortedBy;
    if i in items {
      var k :| 0 <= k < |items| && items[k] == i;
      assert kept[k] in kept;
    }
    if x :| x in table && keep(x) && i == make(x) {
      assert x in kept;
      var k :| 0 <= k < |kept| && kept[k] == x;
      assert items[k] == i;
    }
  }

  lemma CountIsSize(t: Store.Tables, users: seq<int>, server: int)
    requires Store.TablesOk(t, users)
    ensures MemberCount(t, server) == Size(t, server)
  {
    RowsCountMembers(t, users, server);
    hide Filter;
  }

  /** The list of all servers has, by name, exactly the servers, each with the number of users who are members of it. */
  lemma AllServersAreExact(t: Store.Tables, users: seq<int>, i: Item)
    requires Store.TablesOk(t, users)
    ensures i in AllServers(t) <==> exists x :: x in t.servers && i == Item(x.id, x.name, Size(t, x.id))
    ensures SortedBy((x: Item) => x.name, AllServers(t)) && |AllServers(t)| == |t.servers|
  {
    var items := Map((x: Store.ServerRow) => ServerItem(t, x), t.servers);
    SortedItems(items);
    forall x ensures ServerItem(t, x) == Item(x.id, x.name, Size(t, x.id)) {
      CountIsSize(t, users, x.id);
    }
    hide SortBy, SortedBy, MemberCount, ServerItem, Store.TablesOk, Size;
    if i in items {
      var k :| 0 <= k < |items| && items[k] == i;
      assert t.servers[k] in t.servers;
    }
    if x :| x in t.servers && i == Item(x.id, x.name, Size(t, x.id)) {
      var k :| 0 <= k < |t.servers| && t.servers[k] == x;
      assert items[k] == i;
    }
  }

  lemma JoinedCount(t: Store.Tables, users: seq<int>, user: int)
    requires Store.TablesOk(t, users)
    ensures |Filter((x: Store.ServerRow) => Store.IsMember(t, x.id, user), t.servers)| == |set x | x in t.servers && HasMember(t, x.id, user)|
  {
    var keep := (x: Store.ServerRow) => Store.IsMember(t, x.id, user);
    forall i, j | 0 <= i < j < |t.servers| ensures t.servers[i] != t.servers[j] {
      assert Store.ServersDiffer(t.servers[i], t.servers[j]);
    }
    FilterCounts(keep, t.servers);
    forall x: Store.ServerRow ensures keep(x) <==> HasMember(t, x.id, user) {
      Memberships(t, x.id, user);
    }
    assert KeptOf(keep, t.servers) == set x | x in t.servers && HasMember(t, x.id, user);
    hide Filter;
  }

  /** A user's list of servers has, by name, exactly the servers the user is a member of, each once, with the number of its members. */
  lemma JoinedServersAreExact(t: Store.Tables, users: seq<int>, user: int, i: Item)
    requires Store.TablesOk(t, users)
    ensures i in JoinedServers(t, user) <==> exists x :: x in t.servers && HasMember(t, x.id, user) && i == Item(x.id, x.name, Size(t, x.id))
    ensures SortedBy((x: Item) => x.name, JoinedServers(t, user))
    ensures |JoinedServers(t, user)| == |set x | x in t.servers && HasMember(t, x.id, user)|
  {
    JoinedCount(t, users, user);
    ListedRows((x: Store.ServerRow) => ServerItem(t, x), (x: Store.ServerRow) => Store.IsMember(t, x.id, user), t.servers, i);
    forall x: Store.ServerRow
      ensures ServerItem(t, x) == Item(x.id, x.name, Size(t, x.id)) && (Store.IsMember(t, x.id, user) <==> HasMember(t, x.id, user))
    {
      CountIsSize(t, users, x.id);
      Memberships(t, x.id, user);
    }
    hide SortBy, Filter, SortedBy, MemberCount, ServerItem, Store.TablesOk, Size, HasMember, Store.IsMember;
  }

  /** A server's list of members has, by name, exactly its members, each once, with the administrator and online flags as they are. */
  lemma MembersAreExact(t: Store.Tables, users: seq<UserRow>, sessions: seq<Session>, server: int, i: Item)
    requires Store.TablesOk(t, UserIds(users))
    ensures i in ServerMembers(t, users, sessions, server)
            <==> exists m :: m in t.members && m.server == server
                             && i == Item(m.user, NameOf(users, m.user), MemberFlags(m.admin, Online(sessions, m.user)))
    ensures SortedBy((x: Item) => x.name, ServerMembers(t, users, sessions, server)) && |ServerMembers(t, users, sessions, server)| == Size(t, server)
  {
    RowsCountMembers(t, UserIds(users), server);
    ListedRows((m: Store.MemberRow) => Item(m.user, NameOf(users, m.user), MemberFlags(m.admin, Online(sessions, m.user))),
               (m: Store.MemberRow) => m.server == server, t.members, i);
    hide SortBy, Filter, SortedBy, Online, Store.TablesOk, Size, UserIds, NameOf;
  }

  lemma ChannelCount(t: Store.Tables, users: seq<int>, server: int)
    requires Store.TablesOk(t, users)
    ensures |Store.ChannelsOf(t, server)| == |set c | c in t.channels && c.server == server|
  {
    var keep := (c: Store.ChannelRow) => c.server == server;
    forall i, j | 0 <= i < j < |t.channels| ensures t.channels[i] != t.channels[j] {
      assert Store.ChannelsDiffer(t.channels[i], t.channels[j]);
    }
    FilterCounts(keep, t.channels);
    assert KeptOf(keep, t.channels) == set c | c in t.channels && c.server == server;
    hide Filter;
  }

  /** A server's list of channels has, by name, exactly its channels, each once. */
  lemma ChannelsAreExact(t: Store.Tables, users: seq<int>, server: int, i: Item)
    requires Store.TablesOk(t, users)
    ensures i in ServerChannels(t, server) <==> exists c :: c in t.channels && c.server == server && i == Item(c.id, c.name, 0)
    ensures SortedBy((x: Item) => x.name, ServerChannels(t, server))
    ensures |ServerChannels(t, server)| == |set c | c in t.channels && c.server == server|
  {
    ChannelCount(t, users, server);
    ListedRows((c: Store.ChannelRow) => Item(c.id, c.name, 0), (c: Store.ChannelRow) => c.server == server, t.channels, i);
    hide SortBy, Filter, SortedBy, Store.TablesOk;
  }
}
