/**
 The log of the sockets on the wire.  As long as ids and numbers of rows fit 31 bits and names and texts
 are C strings, every packet that the server sends fits the C structure, so that a client reads what the log says.
 */
module Wire {
  import opened Names
  import opened Codec
  import opened Protocol
  import opened Friends
  import Store
  import opened Listing
  import Stream
  import opened Marshal
  import opened Server
  import opened Invariants
  import opened Traffic

  /** The largest C `int`. */
  const INT_LIMIT: nat := 0x7fff_ffff

  // ------------------------------------------------------------ what fits

  predicate UserFits(u: UserRow, n: nat) {
    0 <= u.id <= n && IsText(u.name) && IsText(u.status)
  }

  ghost predicate UsersFit(users: seq<UserRow>, n: nat) {
    |users| <= n && forall u :: u in users ==> UserFits(u, n)
  }

  ghost predicate TablesFit(t: Store.Tables, n: nat) {
    && (forall x :: x in t.servers ==> 0 <= x.id <= n && IsText(x.name))
    && |t.members| <= n
    && (forall c :: c in t.channels ==> 0 <= c.id <= n && IsText(c.name))
    && |t.messages| <= n && (forall m :: m in t.messages ==> 0 <= m.id <= n && IsText(m.text))
  }

  ghost predicate DmsFit(dms: seq<DmRow>, n: nat) {
    forall m :: m in dms ==> 0 <= m.id <= n && IsText(m.text)
  }

  /** No id and no number of rows is above `n`, and every name and text is a C string. */
  ghost predicate Fits(s: State, n: nat) {
    UsersFit(s.users, n) && |s.friends| <= n && TablesFit(s.tables, n) && DmsFit(s.dms, n)
  }

  predicate RequestFits(e: Event) {
    e.Request? ==> FitsPacket(e.packet)
  }

  predicate OutFits(o: Out) {
    o.Sent? ==> FitsPacket(o.packet)
  }

  /** The log goes on with packets that fit. */
  ghost predicate FitLog(a: seq<Out>, b: seq<Out>) {
    a <= b && forall k :: |a| <= k < |b| ==> OutFits(b[k])
  }

  lemma FitAppend(a: seq<Out>, outs: seq<Out>)
    requires forall o :: o in outs ==> OutFits(o)
    ensures FitLog(a, a + outs)
  {}

  lemma FitTrans(a: seq<Out>, b: seq<Out>, c: seq<Out>)
    requires FitLog(a, b) && FitLog(b, c)
    ensures FitLog(a, c)
  {}

  lemma FitSend(a: seq<Out>, fd: int, p: Packet)
    requires FitsPacket(p)
    ensures FitLog(a, a + [Sent(fd, p)])
  {}

  lemma FitInto(a: seq<Out>, fd: int, ps: seq<Packet>)
    requires forall p :: p in ps ==> FitsPacket(p)
    ensures FitLog(a, a + Into(fd, ps)) && forall o :: o in Into(fd, ps) ==> OutFits(o)
  {}

  lemma FitConcat(a: seq<Out>, b: seq<Out>)
    requires (forall o :: o in a ==> OutFits(o)) && forall o :: o in b ==> OutFits(o)
    ensures forall o :: o in a + b ==> OutFits(o)
  {}

  // ------------------------------------------------------------ names

  lemma CutFits(s: string, n: nat)
    requires IsText(s)
    ensures IsText(Truncated(s, n)) && |Truncated(s, n)| <= n
  {}

  lemma {:induction false} NameFits(users: seq<UserRow>, id: int, n: nat)
    requires forall u :: u in users ==> UserFits(u, n)
    ensures IsText(NameOf(users, id))
  {
    if users != [] {
      assert users[|users| - 1] in users;
      NameFits(users[..|users| - 1], id, n);
    }
  }

  lemma IdFits(users: seq<UserRow>, id: int, n: nat)
    requires UsersFit(users, n) && id in UserIds(users)
    ensures 0 <= id <= n
  {
    UserIdIn(users);
  }

  /** What a session adds to the packets of its user. */
  lemma SessionFits(s: State, i: nat, n: nat)
    requires Good(s) && Fits(s, n) && i < |s.sessions|
    ensures 0 <= s.sessions[i].id <= n && IsText(s.sessions[i].username) && |s.sessions[i].username| <= NAME_LEN
  {
    var c := s.sessions[i];
    assert c in s.sessions && SessionOk(c, s.users);
    hide Good, UserIds, NameOf, Truncated;
    if c.authenticated {
      IdFits(s.users, c.id, n);
      NameFits(s.users, c.id, n);
      CutFits(NameOf(s.users, c.id), NAME_LEN);
    }
  }

  // ------------------------------------------------------------ answers

  lemma RepliesFit(action: int, status: int)
    requires IsInt32(action) && IsInt32(status)
    ensures FitsPacket(SocialResponse(action, status)) && FitsPacket(ServerResponse(action, status))
  {}

  lemma AuthReplyFits(action: int, status: int, name: string)
    requires IsInt32(action) && IsInt32(status) && IsText(name)
    ensures FitsPacket(AuthReply(action, status, name))
  {}

  lemma StatusFits(status: int, user: int, name: string, profile: string, online: bool, n: nat)
    requires IsInt32(status) && 0 <= user <= n <= INT_LIMIT && IsText(name) && IsText(profile)
    ensures FitsPacket(StatusPacket(status, user, name, profile, online))
  {
    CutFits(name, NAME_LEN);
    CutFits(profile, STATUS_LEN);
    hide IsText, Truncated;
  }

  // ------------------------------------------------------------ streams

  lemma UserPacketFits(sessions: seq<Session>, u: UserRow, index: int, n: nat)
    requires UserFits(u, n) && 0 <= index <= n <= INT_LIMIT
    ensures FitsPacket(UserPacket(sessions, u, index))
  {
    CutFits(u.name, NAME_LEN);
    CutFits(u.status, STATUS_LEN);
    hide IsText, Truncated, Online;
  }

  lemma FramesFit(action: int, total: int)
    requires IsInt32(action) && IsInt32(total)
    ensures FitsPacket(ListStart(action)) && FitsPacket(ListEnd(action, total))
  {}

  lemma UserStreamFits(sessions: seq<Session>, users: seq<UserRow>, n: nat)
    requires UsersFit(users, n) && n <= INT_LIMIT
    ensures forall p :: p in UserListStream(sessions, users) ==> FitsPacket(p)
  {
    hide SortBy, UserPacket, ListStart, ListEnd, UserFits, FitsPacket;
    SortByPermutes((u: UserRow) => u.name, users);
    FramesFit(SOCIAL_LIST_USERS, |users|);
    var rows := ByName(users);
    forall k | 0 <= k < |rows| ensures FitsPacket(UserPacket(sessions, rows[k], k)) {
      assert rows[k] in multiset(rows);
      UserPacketFits(sessions, rows[k], k, n);
    }
  }

  lemma FriendPacketFits(e: FriendEntry, index: int, n: nat)
    requires 0 <= e.id <= n && 0 <= index <= n <= INT_LIMIT && IsText(e.name) && IsInt32(e.kind)
    ensures FitsPacket(FriendPacket(e, index))
  {
    CutFits(e.name, NAME_LEN);
    hide Truncated;
  }

  lemma {:induction false} TwoFilters<T(!new)>(p: T -> bool, q: T -> bool, s: seq<T>)
    requires forall x :: x in s ==> !(p(x) && q(x))
    ensures |Filter(p, s)| + |Filter(q, s)| <= |s|
  {
    if s != [] {
      TwoFilters(p, q, s[..|s| - 1]);
      assert s[|s| - 1] in s;
    }
  }

  lemma ListingFits(t: seq<FriendRow>, users: seq<UserRow>, me: int, n: nat)
    requires TableOk(t) && |t| <= n && UsersFit(users, n)
    ensures |FriendListing(t, users, me)| <= n
    ensures forall e :: e in FriendListing(t, users, me) ==> 0 <= e.id <= n && IsText(e.name) && 0 <= e.kind <= 2
  {
    var toMe := (r: FriendRow) => r.friend == me && r.user in UserIds(users);
    var fromMe := (r: FriendRow) => r.user == me && r.friend in UserIds(users);
    TwoFilters(toMe, fromMe, t);
    FilterMembers(toMe, t);
    FilterMembers(fromMe, t);
    hide Filter;
    forall id ensures IsText(NameOf(users, id)) {
      NameFits(users, id, n);
    }
    forall id | id in UserIds(users) ensures 0 <= id <= n {
      IdFits(users, id, n);
    }
    hide NameOf, UserIds, IsText;
    assert forall r :: r in Filter(toMe, t) ==> r.user in UserIds(users);
    assert forall r :: r in Filter(fromMe, t) ==> r.friend in UserIds(users);
  }

  lemma FriendStreamFits(s: State, user: int, n: nat)
    requires Good(s) && Fits(s, n) && n <= INT_LIMIT
    ensures forall p :: p in FriendListStream(FriendListing(s.friends, s.users, user)) ==> FitsPacket(p)
  {
    ListingFits(s.friends, s.users, user, n);
    hide Good, Fits, FriendListing, FriendPacket, ListStart, ListEnd, FitsPacket, IsText;
    var es := FriendListing(s.friends, s.users, user);
    FramesFit(SOCIAL_LIST_FRIENDS, |es|);
    forall k | 0 <= k < |es| ensures FitsPacket(FriendPacket(es[k], k)) {
      assert es[k] in es;
      FriendPacketFits(es[k], k, n);
    }
  }

  predicate ItemFits(x: Item) {
    IsInt64(x.id) && IsText(x.name) && IsInt32(x.count)
  }

  ghost predicate ItemsFit(rows: seq<Item>) {
    forall x :: x in rows ==> ItemFits(x)
  }

  lemma SortFits(rows: seq<Item>)
    requires ItemsFit(rows)
    ensures ItemsFit(SortBy((i: Item) => i.name, rows))
  {
    hide SortBy, ItemFits;
    SortByPermutes((i: Item) => i.name, rows);
    forall x | x in SortBy((i: Item) => i.name, rows) ensures ItemFits(x) {
      assert x in multiset(rows);
    }
  }

  lemma ServerItemFits(t: Store.Tables, x: Store.ServerRow, n: nat)
    requires TablesFit(t, n) && n <= INT_LIMIT && x in t.servers
    ensures ItemFits(ServerItem(t, x))
  {
    hide Filter;
  }

  lemma ServersFit(t: Store.Tables, user: int, n: nat)
    requires TablesFit(t, n) && n <= INT_LIMIT
    ensures ItemsFit(AllServers(t)) && ItemsFit(JoinedServers(t, user))
  {
    forall x | x in t.servers ensures ItemFits(ServerItem(t, x)) {
      ServerItemFits(t, x, n);
    }
    FilterMembers((x: Store.ServerRow) => Store.IsMember(t, x.id, user), t.servers);
    hide TablesFit, SortBy, Filter, ServerItem, ItemFits;
    var joined := Filter((x: Store.ServerRow) => Store.IsMember(t, x.id, user), t.servers);
    forall k | 0 <= k < |joined| ensures joined[k] in t.servers {
      assert joined[k] in joined;
    }
    SortFits(Map((x: Store.ServerRow) => ServerItem(t, x), t.servers));
    SortFits(Map((x: Store.ServerRow) => ServerItem(t, x), joined));
  }

  lemma ChannelsFit(t: Store.Tables, server: int, n: nat)
    requires TablesFit(t, n) && n <= INT_LIMIT
    ensures ItemsFit(ServerChannels(t, server))
  {
    FilterMembers((c: Store.ChannelRow) => c.server == server, t.channels);
    hide SortBy, Filter, IsText;
    var rows := Store.ChannelsOf(t, server);
    forall k | 0 <= k < |rows| ensures rows[k] in t.channels {
      assert rows[k] in rows;
    }
    SortFits(Map((c: Store.ChannelRow) => Item(c.id, c.name, 0), rows));
  }

  lemma MembersFit(s: State, server: int, n: nat)
    requires DatabaseOk(s) && Fits(s, n) && n <= INT_LIMIT
    ensures ItemsFit(ServerMembers(s.tables, s.users, s.sessions, server))
  {
    FilterMembers((m: Store.MemberRow) => m.server == server, s.tables.members);
    var rows := Filter((m: Store.MemberRow) => m.server == server, s.tables.members);
    forall k | 0 <= k < |rows| ensures 0 <= rows[k].user <= n && IsText(NameOf(s.users, rows[k].user)) {
      assert rows[k] in rows;
      IdFits(s.users, rows[k].user, n);
      NameFits(s.users, rows[k].user, n);
    }
    hide SortBy, Filter, IsText, NameOf, Online, DatabaseOk, Fits;
    SortFits(Map((m: Store.MemberRow) => Item(m.user, NameOf(s.users, m.user), MemberFlags(m.admin, Online(s.sessions, m.user))), rows));
  }

  lemma ItemPacketFits(action: int, items: seq<Item>, k: nat)
    requires IsInt32(action) && k < |items| <= 64 && ItemFits(items[k])
    ensures FitsPacket(ItemPacket(action, items, k))
  {
    CutFits(items[k].name, NAME_LEN);
    hide IsText, Truncated;
  }

  lemma ListStreamFits(action: int, rows: seq<Item>, limit: nat)
    requires IsInt32(action) && ItemsFit(rows) && limit <= 64
    ensures forall p :: p in ListStream(action, Collected(rows, limit)) ==> FitsPacket(p)
  {
    hide ItemPacket, ItemFits;
    var items := Collected(rows, limit);
    forall k | 0 <= k < |items| ensures ItemFits(items[k]) {
      assert First(rows, limit)[k] in rows;
      CutItemFits(rows[k]);
    }
    forall k | 0 <= k < |items| ensures FitsPacket(ItemPacket(action, items, k)) {
      ItemPacketFits(action, items, k);
    }
  }

  lemma CutItemFits(x: Item)
    requires ItemFits(x)
    ensures ItemFits(x.Cut())
  {
    CutFits(x.name, NAME_LEN);
  }

  lemma DmStreamFits(s: State, c: Session, friend: int, n: nat)
    requires Good(s) && Fits(s, n) && n <= INT_LIMIT && 0 <= c.id <= n && IsInt32(friend)
    ensures forall p :: p in DmStream(s.users, c, friend, History(s.dms, c.id, friend)) ==> FitsPacket(p)
  {
    var rows := History(s.dms, c.id, friend);
    FilterMembers((m: DmRow) => m.Between(c.id, friend), s.dms);
    hide Filter, Good, NameOf;
    forall k | 0 <= k < |rows| ensures FitsPacket(DmPacket(s.users, c, friend, rows[k], k)) {
      var all := Filter((m: DmRow) => m.Between(c.id, friend), s.dms);
      assert rows[k] in all && rows[k] in s.dms;
      CutFits(rows[k].text, MESSAGE_LEN);
    }
  }

  lemma ChannelPacketsFit(s: State, channel: int, n: nat)
    requires Fits(s, n) && n <= INT_LIMIT && IsInt64(channel)
    ensures forall p :: p in ChannelStream(s, channel) ==> FitsPacket(p)
  {
    var rows := Store.HistoryOf(s.tables, channel);
    FilterMembers((m: Store.MessageRow) => m.channel == channel, s.tables.messages);
    hide Filter, NameOf;
    var ps := ChannelItems(s.users, channel, rows);
    forall k | 0 <= k < |rows| ensures FitsPacket(ps[k]) {
      assert rows[k] in rows && rows[k] in s.tables.messages;
      CutFits(rows[k].text, MESSAGE_LEN);
      NameFits(s.users, rows[k].user, n);
      CutFits(NameOf(s.users, rows[k].user), NAME_LEN);
    }
  }

  // ------------------------------------------------------------ pushes

  lemma {:induction false} UserPushesFit(s: State, n: nat, k: nat)
    requires UsersFit(s.users, n) && n <= INT_LIMIT && k <= |s.sessions|
    ensures forall o :: o in NotifyUsers(s.sessions, s.users, k) ==> OutFits(o)
  {
    hide UserListStream, OutFits, Into, FitsPacket;
    if k > 0 {
      UserPushesFit(s, n, k - 1);
      UserStreamFits(s.sessions, s.users, n);
      FitInto([], s.sessions[k - 1].fd, UserListStream(s.sessions, s.users));
    }
  }

  lemma {:induction false} MemberPushesFit(s: State, server: int, n: nat, k: nat)
    requires DatabaseOk(s) && Fits(s, n) && n <= INT_LIMIT && k <= |s.sessions|
    ensures forall o :: o in NotifyMembers(s, server, k) ==> OutFits(o)
  {
    hide OutFits, Into, FitsPacket, ListStream, ServerMembers, Collected, DatabaseOk, Fits, ItemsFit;
    if k > 0 {
      MemberPushesFit(s, server, n, k - 1);
      MembersFit(s, server, n);
      ListStreamFits(SERVER_LIST_MEMBERS, ServerMembers(s.tables, s.users, s.sessions, server), MAX_SERVER_MEMBERS);
      FitInto([], s.sessions[k - 1].fd, MemberStream(s, server));
    }
  }

  lemma {:induction false} JoinedPushesFit(s: State, servers: seq<Item>, n: nat, k: nat)
    requires DatabaseOk(s) && Fits(s, n) && n <= INT_LIMIT && k <= |servers|
    ensures forall o :: o in NotifyJoined(s, servers, k) ==> OutFits(o)
  {
    hide OutFits, NotifyMembers, DatabaseOk, Fits;
    if k > 0 {
      JoinedPushesFit(s, servers, n, k - 1);
      MemberPushesFit(s, servers[k - 1].id, n, |s.sessions|);
      FitConcat(NotifyJoined(s, servers, k - 1), NotifyMembers(s, servers[k - 1].id, |s.sessions|));
    }
  }

  lemma AnnounceFits(s: State, user: int, n: nat)
    requires DatabaseOk(s) && Fits(s, n) && n <= INT_LIMIT
    ensures FitLog(s.sent, Announce(s, user).sent)
  {
    hide OutFits, NotifyJoined, NotifyUsers, JoinedServers, DatabaseOk, FitLog;
    var joined := JoinedServers(s.tables, user);
    JoinedPushesFit(s, joined, n, |joined|);
    UserPushesFit(s, n, |s.sessions|);
    FitAppend(s.sent, NotifyJoined(s, joined, |joined|));
    FitAppend(s.sent + NotifyJoined(s, joined, |joined|), NotifyUsers(s.sessions, s.users, |s.sessions|));
    FitTrans(s.sent, s.sent + NotifyJoined(s, joined, |joined|), Announce(s, user).sent);
  }

  lemma FriendPushFits(s: State, user: int, n: nat)
    requires Good(s) && Fits(s, n) && n <= INT_LIMIT
    ensures FitLog(s.sent, s.sent + NotifyFriends(s, user))
  {
    hide FriendListStream, FriendListing, Good, Fits, FitLog, Into, FitsPacket;
    FriendStreamFits(s, user, n);
    var k := FirstWithId(s.sessions, user, 0);
    if k >= 0 {
      FitInto(s.sent, s.sessions[k].fd, FriendListStream(FriendListing(s.friends, s.users, user)));
    } else {
      FitAppend(s.sent, []);
    }
  }

  lemma {:induction false} BroadcastFits(sessions: seq<Session>, p: Packet, k: nat)
    requires k <= |sessions| && FitsPacket(p)
    ensures forall o :: o in Broadcast(sessions, p, k) ==> OutFits(o)
    ensures forall o :: o in ToSessions(sessions, p, k) ==> OutFits(o)
  {
    hide FitsPacket;
    if k > 0 {
      BroadcastFits(sessions, p, k - 1);
    }
  }

  lemma {:induction false} FarewellsFit(sessions: seq<Session>, fd: int, user: int, name: string, k: nat)
    requires k <= |sessions| && IsText(name)
    ensures forall o :: o in RevokeOuts(sessions, fd, user, name, k) ==> OutFits(o)
  {
    hide FitsPacket, AuthReply, IsText;
    if k > 0 {
      FarewellsFit(sessions, fd, user, name, k - 1);
      AuthReplyFits(AUTH_LOGOUT, RESP_OK, name);
    }
  }

  // ------------------------------------------------------------ the tables after a request

  lemma NextIdFits(ids: seq<int>, n: nat)
    requires forall i :: i in ids ==> i <= n
    ensures 0 < NextId(ids) <= n + 1
  {}

  lemma CreateFits(t: Store.Tables, users: seq<int>, name: string, user: int, n: nat)
    requires TablesFit(t, n) && IsText(name)
    ensures TablesFit(Store.CreateServer(t, users, name, user).1, n + 1)
  {
    hide IsText;
    var ids := Store.ServerIds(t.servers);
    forall i | i in ids ensures i <= n {
      var k :| 0 <= k < |ids| && ids[k] == i;
      assert t.servers[k] in t.servers;
    }
    NextIdFits(ids, n);
    hide Store.ServerIds, NextId;
  }

  lemma DeletesFit(t: Store.Tables, server: int, channel: int, user: int, n: nat)
    requires TablesFit(t, n)
    ensures TablesFit(Store.DeleteServer(t, server), n) && TablesFit(Store.DeleteChannel(t, channel), n)
    ensures TablesFit(Store.DeleteMember(t, server, user), n)
  {
    FilterMembers((x: Store.ServerRow) => x.id != server, t.servers);
    FilterMembers((c: Store.ChannelRow) => c.server != server, t.channels);
    FilterMembers((c: Store.ChannelRow) => c.id != channel, t.channels);
    FilterMembers((m: Store.MessageRow) => m.channel != channel, t.messages);
    FilterMembers((m: Store.MessageRow) => m.channel !in Store.ChannelIds(Store.ChannelsOf(t, server)), t.messages);
    hide Filter, IsText, Store.ChannelsOf;
  }

  lemma ChannelFits(t: Store.Tables, server: int, name: string, n: nat)
    requires TablesFit(t, n) && IsText(name)
    ensures TablesFit(Store.CreateChannel(t, server, name).1, n + 1) && 0 < NextId(Store.ChannelIds(t.channels)) <= n + 1
  {
    hide IsText;
    var ids := Store.ChannelIds(t.channels);
    forall i | i in ids ensures i <= n {
      var k :| 0 <= k < |ids| && ids[k] == i;
      assert t.channels[k] in t.channels;
    }
    NextIdFits(ids, n);
    hide Store.ChannelIds, NextId;
  }

  lemma MessageFits(t: Store.Tables, users: seq<int>, channel: int, user: int, text: string, n: nat)
    requires TablesFit(t, n) && IsText(text)
    ensures TablesFit(Store.SaveMessage(t, users, channel, user, text).1, n + 1)
  {
    hide IsText;
    var ids := Store.MessageIds(t.messages);
    forall i | i in ids ensures i <= n {
      var k :| 0 <= k < |ids| && ids[k] == i;
      assert t.messages[k] in t.messages;
    }
    NextIdFits(ids, n);
    hide Store.MessageIds, NextId;
  }

  predicate StoreRequestFits(r: Store.Request) {
    && (r.Create? ==> IsText(r.name))
    && (r.AddChannel? ==> IsText(r.name))
    && (r.Post? ==> IsText(r.text))
  }

  lemma MoreFits(t: Store.Tables, n: nat, m: nat)
    requires TablesFit(t, n) && n <= m
    ensures TablesFit(t, m)
  {}

  lemma StoreFits(op: Store.Op, t: Store.Tables, n: nat)
    requires TablesFit(t, n) && StoreRequestFits(op.request)
    ensures TablesFit(Store.Perform(op, t).1, n + 1)
  {
    hide TablesFit, Store.CreateServer, Store.CreateChannel, Store.SaveMessage, Store.DeleteServer, Store.DeleteChannel, Store.DeleteMember, IsText, Store.InsertMember;
    MoreFits(t, n, n + 1);
    match op.request
    case Create(name) => CreateFits(t, op.users, name, op.actor, n);
    case Join(server) => InsertFits(t, op.users, server, op.actor, n);
    case Leave(server) => DeletesFit(t, server, 0, op.actor, n + 1);
    case Delete(server) => DeletesFit(t, server, 0, 0, n + 1);
    case Kick(server, user) => DeletesFit(t, server, 0, user, n + 1);
    case AddChannel(server, name) => ChannelFits(t, server, name, n);
    case DropChannel(channel) => DeletesFit(t, 0, channel, 0, n + 1);
    case Post(channel, text) => MessageFits(t, op.users, channel, op.actor, text, n);
  }

  lemma InsertFits(t: Store.Tables, users: seq<int>, server: int, user: int, n: nat)
    requires TablesFit(t, n)
    ensures TablesFit(Store.InsertMember(t, users, server, user, false).1, n + 1)
  {}

  lemma FriendsGrow(op: FriendOp, t: seq<FriendRow>)
    ensures |Perform(op, t).1| <= |t| + 1
  {}

  lemma NewUserFits(users: seq<UserRow>, name: string, n: nat)
    requires UsersFit(users, n) && IsText(name)
    ensures UsersFit(users + [UserRow(NextId(UserIds(users)), name, "")], n + 1)
  {
    assert IsText("");
    hide IsText;
    forall i | i in UserIds(users) ensures i <= n {
      IdFits(users, i, n);
    }
    NextIdFits(UserIds(users), n);
    hide UserIds, NextId;
  }

  lemma ProfileFits(users: seq<UserRow>, id: int, profile: string, n: nat)
    requires UsersFit(users, n) && IsText(profile)
    ensures UsersFit(WithProfile(users, id, profile), n)
  {
    hide IsText;
    var r := WithProfile(users, id, profile);
    forall k | 0 <= k < |r| ensures UserFits(r[k], n) {
      assert users[k] in users;
    }
  }

  lemma FitsMore(s: State, n: nat, m: nat)
    requires Fits(s, n) && n <= m
    ensures Fits(s, m)
  {}

  lemma SavedDmFits(s: State, sender: int, receiver: int, text: string, n: nat)
    requires Fits(s, n) && IsText(text)
    ensures Fits(SaveDm(s, sender, receiver, text), n + 1)
  {
    FitsMore(s, n, n + 1);
    hide IsText, UsersFit, TablesFit;
    var ids := DmIds(s.dms);
    forall i | i in ids ensures i <= n {
      var k :| 0 <= k < |ids| && ids[k] == i;
      assert s.dms[k] in s.dms;
    }
    NextIdFits(ids, n);
    hide DmIds, NextId;
  }

  /** The state is what it was, but for the sessions and the log. */
  lemma SameTablesFit(s: State, s': State, n: nat)
    requires Fits(s, n) && s'.users == s.users && s'.friends == s.friends && s'.tables == s.tables && s'.dms == s.dms
    ensures Fits(s', n)
  {}

  // ------------------------------------------------------------ every event

  /** After an event nothing is larger than before by more than one, and what was sent fits. */
  ghost predicate StepFits(s: State, s': State, n: nat) {
    Fits(s', n + 1) && FitLog(s.sent, s'.sent)
  }

  lemma ReplyFits(s: State, fd: int, p: Packet, n: nat)
    requires Fits(s, n) && FitsPacket(p)
    ensures StepFits(s, s.Send(fd, p), n)
  {
    hide FitsPacket, UsersFit, TablesFit, DmsFit, Fits;
    FitSend(s.sent, fd, p);
    SameTablesFit(s, s.Send(fd, p), n);
    FitsMore(s.Send(fd, p), n, n + 1);
  }

  lemma StreamFits(s: State, fd: int, ps: seq<Packet>, n: nat)
    requires Fits(s, n) && forall p :: p in ps ==> FitsPacket(p)
    ensures StepFits(s, s.SendAll(Into(fd, ps)), n)
  {
    hide FitsPacket, Into, Fits;
    FitInto(s.sent, fd, ps);
    SameTablesFit(s, s.SendAll(Into(fd, ps)), n);
    FitsMore(s.SendAll(Into(fd, ps)), n, n + 1);
  }

  lemma RegisterFits(s: State, i: nat, name: string, hashOk: bool, n: nat)
    requires Good(s) && Fits(s, n) && n < INT_LIMIT && i < |s.sessions| && IsText(name)
    ensures StepFits(s, Register(s, i, name, hashOk), n)
  {
    hide Good, NotifyUsers, AuthReply, FitsPacket, NameTaken, TablesFit, DmsFit, UsersFit, NextId, FitLog, OutFits;
    var fd := s.sessions[i].fd;
    AnswersFit();
    if !hashOk || NameTaken(s.users, name) {
      ReplyFits(s, fd, AuthReply(AUTH_REGISTER, if !hashOk then 1 else RESP_ERR_CONFLICT, ""), n);
    } else {
      var id := NextId(s.Ids());
      var s1 := s.(users := s.users + [UserRow(id, name, "")], sessions := s.sessions[i := s.sessions[i].LoggedIn(id, name)]);
      NewUserFits(s.users, name, n);
      MoreTablesFit(s, n);
      UserPushesFit(s1, n + 1, |s1.sessions|);
      FitAppend(s.sent, NotifyUsers(s1.sessions, s1.users, |s1.sessions|));
      FitSend(s.sent + NotifyUsers(s1.sessions, s1.users, |s1.sessions|), fd, AuthReply(AUTH_REGISTER, RESP_OK, ""));
      FitTrans(s.sent, s.sent + NotifyUsers(s1.sessions, s1.users, |s1.sessions|), Register(s, i, name, hashOk).sent);
    }
  }

  lemma MoreTablesFit(s: State, n: nat)
    requires Fits(s, n)
    ensures TablesFit(s.tables, n + 1) && DmsFit(s.dms, n + 1) && |s.friends| <= n + 1 && UsersFit(s.users, n + 1)
  {}

  lemma AnswersFit()
    ensures FitsPacket(AuthReply(AUTH_REGISTER, 1, "")) && FitsPacket(AuthReply(AUTH_REGISTER, RESP_ERR_CONFLICT, ""))
    ensures FitsPacket(AuthReply(AUTH_REGISTER, RESP_OK, "")) && FitsPacket(AuthReply(AUTH_LOGIN, RESP_OK, ""))
    ensures FitsPacket(AuthReply(AUTH_LOGIN, 1, "")) && FitsPacket(AuthReply(AUTH_LOGIN, RESP_ERR_INVALID, ""))
    ensures FitsPacket(AuthReply(AUTH_LOGOUT, RESP_ERR_UNAUTHORIZED, ""))
  {}

  lemma AnnouncedFits(s: State, s1: State, user: int, n: nat)
    requires DatabaseOk(s1) && Fits(s1, n) && n < INT_LIMIT && FitLog(s.sent, s1.sent)
    ensures StepFits(s, Announce(s1, user), n)
  {
    hide DatabaseOk, Fits, Announce, FitLog;
    AnnounceFits(s1, user, n);
    FitTrans(s.sent, s1.sent, Announce(s1, user).sent);
    AnnounceKeepsAll(s1, user);
    SameTablesFit(s1, Announce(s1, user), n);
    FitsMore(Announce(s1, user), n, n + 1);
  }

  lemma AnnounceKeepsAll(s: State, user: int)
    ensures Announce(s, user) == s.(sent := Announce(s, user).sent)
  {
    hide NotifyJoined, NotifyUsers, JoinedServers;
  }

  lemma ThenSend(s: State, s1: State, fd: int, p: Packet, n: nat)
    requires StepFits(s, s1, n) && FitsPacket(p)
    ensures StepFits(s, s1.Send(fd, p), n)
  {
    hide FitsPacket, Fits, FitLog;
    FitSend(s1.sent, fd, p);
    FitTrans(s.sent, s1.sent, s1.Send(fd, p).sent);
    SameTablesFit(s1, s1.Send(fd, p), n + 1);
  }

  lemma LoginFits(s: State, i: nat, name: string, hashOk: bool, n: nat)
    requires Good(s) && Fits(s, n) && n < INT_LIMIT && i < |s.sessions| && IsText(name)
    ensures StepFits(s, Login(s, i, name, hashOk), n)
  {
    hide DatabaseOk, SessionsOk, Announce, RevokeOuts, AuthReply, FitsPacket, NameTaken, IdOf, Fits, FitLog, OutFits;
    var fd := s.sessions[i].fd;
    AnswersFit();
    if !NameTaken(s.users, name) {
      ReplyFits(s, fd, AuthReply(AUTH_LOGIN, 1, ""), n);
    } else if !hashOk {
      ReplyFits(s, fd, AuthReply(AUTH_LOGIN, RESP_ERR_INVALID, ""), n);
    } else {
      var user := IdOf(s.users, name);
      var outs := RevokeOuts(s.sessions, fd, user, name, |s.sessions|);
      var s1 := s.SendAll(outs).(sessions := Revoked(s.sessions, fd, user));
      var s2 := s1.(sessions := s1.sessions[i := s1.sessions[i].LoggedIn(user, name)]);
      FarewellsFit(s.sessions, fd, user, name, |s.sessions|);
      FitAppend(s.sent, outs);
      SameTablesFit(s, s2, n);
      SameDatabase(s, s2);
      AnnouncedFits(s, s2, user, n);
      ThenSend(s, Announce(s2, user), fd, AuthReply(AUTH_LOGIN, RESP_OK, ""), n);
    }
  }

  lemma SameDatabase(s: State, s': State)
    requires DatabaseOk(s) && s'.users == s.users && s'.friends == s.friends && s'.tables == s.tables && s'.dms == s.dms
    ensures DatabaseOk(s')
  {}

  lemma NothingNew(sent: seq<Out>)
    ensures FitLog(sent, sent)
  {}

  lemma LogoutFits(s: State, i: nat, n: nat)
    requires Good(s) && Fits(s, n) && n < INT_LIMIT && i < |s.sessions|
    ensures StepFits(s, Logout(s, i), n)
  {
    var c := s.sessions[i];
    SessionFits(s, i, n);
    AnswersFit();
    AuthReplyFits(AUTH_LOGOUT, RESP_DONE, c.username);
    hide DatabaseOk, SessionsOk, Announce, AuthReply, FitsPacket, Fits, FitLog, OutFits, IsText;
    if !c.authenticated {
      ReplyFits(s, c.fd, AuthReply(AUTH_LOGOUT, RESP_ERR_UNAUTHORIZED, ""), n);
    } else {
      var s1 := s.(sessions := s.sessions[i := c.Cleared()]);
      SameTablesFit(s, s1, n);
      SameDatabase(s, s1);
      NothingNew(s.sent);
      AnnouncedFits(s, s1, c.id, n);
      ThenSend(s, Announce(s1, c.id), c.fd, AuthReply(AUTH_LOGOUT, RESP_DONE, c.username), n);
    }
  }

  lemma UnchangedFits(s: State, s': State, n: nat)
    requires Fits(s, n) && s'.users == s.users && s'.friends == s.friends && s'.tables == s.tables && s'.dms == s.dms
    requires s'.sent == s.sent || exists fd :: s'.sent == s.sent + [Opened(fd)]
    ensures StepFits(s, s', n)
  {
    FitsMore(s, n, n + 1);
    hide UsersFit, TablesFit, DmsFit;
  }

  lemma AuthFits(s: State, i: nat, p: Packet, hashOk: bool, n: nat)
    requires Good(s) && Fits(s, n) && n < INT_LIMIT && i < |s.sessions| && p.payload.Auth? && FitsPacket(p)
    ensures StepFits(s, HandleAuth(s, i, p, hashOk), n)
  {
    hide Good, Register, Login, Logout, Fits, StepFits, IsText;
    RegisterFits(s, i, p.payload.username, hashOk, n);
    LoginFits(s, i, p.payload.username, hashOk, n);
    LogoutFits(s, i, n);
    UnchangedFits(s, s, n);
  }

  lemma HangupFits(s: State, i: nat, n: nat)
    requires Good(s) && Fits(s, n) && n < INT_LIMIT && i < |s.sessions|
    ensures StepFits(s, Disconnect(s, i), n)
  {
    hide DatabaseOk, SessionsOk, Announce, Fits, FitLog, StepFits;
    var s1 := s.(sessions := s.sessions[..i] + s.sessions[i + 1..]);
    SameTablesFit(s, s1, n);
    SameDatabase(s, s1);
    NothingNew(s.sent);
    AnnouncedFits(s, s1, s.sessions[i].id, n);
    UnchangedFits(s, s1, n);
  }

  lemma DmRequestFits(p: Packet, sender: int)
    requires p.payload.Dm? && FitsPacket(p) && 0 <= sender <= INT_LIMIT
    ensures FitsPacket(p.(sender := sender)) && IsInt32(p.payload.recipient) && IsText(p.payload.text)
  {}

  lemma DmFits(s: State, i: nat, p: Packet, n: nat)
    requires Good(s) && Fits(s, n) && n < INT_LIMIT && i < |s.sessions| && p.payload.Dm? && FitsPacket(p)
    ensures StepFits(s, HandleDm(s, i, p), n)
  {
    hide Good, Fits, StepFits, DmStream, IsText, History, FitsPacket, SaveDm, UserFits;
    var c, receiver := s.sessions[i], p.payload.recipient;
    SessionFits(s, i, n);
    DmRequestFits(p, c.id);
    DmStreamFits(s, c, receiver, n);
    SavedDmFits(s, c.id, receiver, p.payload.text, n);
    UnchangedFits(s, s, n);
    SavedDmLog(s, c.id, receiver, p.payload.text);
    var s1 := SaveDm(s, c.id, receiver, p.payload.text);
    SameLogFits(s, s1, n);
    var k := FirstWithId(s1.sessions, receiver, 0);
    if k >= 0 {
      ThenSend(s, s1, s1.sessions[k].fd, p.(sender := c.id), n);
    }
    StreamFits(s, c.fd, DmStream(s.users, c, receiver, History(s.dms, c.id, receiver)), n);
  }

  lemma SameLogFits(s: State, s': State, n: nat)
    requires Fits(s', n + 1) && s'.sent == s.sent
    ensures StepFits(s, s', n)
  {}

  lemma SavedDmLog(s: State, sender: int, receiver: int, text: string)
    ensures SaveDm(s, sender, receiver, text).sent == s.sent && SaveDm(s, sender, receiver, text).sessions == s.sessions
  {}

  lemma NewTablesFit(s: State, op: Store.Op, n: nat)
    requires Fits(s, n) && StoreRequestFits(op.request)
    ensures Fits(s.(tables := Store.Perform(op, s.tables).1), n + 1)
  {
    StoreFits(op, s.tables, n);
    FitsMore(s, n, n + 1);
    hide UsersFit, TablesFit, DmsFit, Store.Perform;
  }

  lemma TableFits(s: State, i: nat, q: Payload, n: nat)
    requires Good(s) && Fits(s, n) && n < INT_LIMIT && i < |s.sessions| && q.Server? && IsTableAction(q.action) && FitsPayload(q)
    ensures StepFits(s, HandleTable(s, i, q), n)
  {
    hide DatabaseOk, SessionsOk, Fits, Store.Perform, NotifyMembers, ServerResponse, FitLog, FitsPacket, OutFits, IsText;
    var c := s.sessions[i];
    var op := OpOf(s, c, RequestOf(q));
    var (code, tables) := Store.Perform(op, s.tables);
    RepliesFit(q.action, CodeOf(code));
    NewTablesFit(s, op, n);
    NewTablesKeepDatabase(s, op);
    var c' := if q.action == SERVER_LEAVE && code.Done? && c.currentServer == q.server then c.(currentServer := -1) else c;
    var s0 := s.(tables := tables, sessions := s.sessions[i := c']);
    var s1 := s0.Send(c.fd, ServerResponse(q.action, CodeOf(code)));
    SameTablesFit(s.(tables := tables), s0, n + 1);
    SameDatabase(s.(tables := tables), s1);
    NothingNew(s.sent);
    ThenSend(s, s0, c.fd, ServerResponse(q.action, CodeOf(code)), n);
    MemberPushesFit(s1, q.server, n + 1, |s1.sessions|);
    FitAppend(s1.sent, NotifyMembers(s1, q.server, |s1.sessions|));
    FitTrans(s.sent, s1.sent, s1.sent + NotifyMembers(s1, q.server, |s1.sessions|));
    SameTablesFit(s1, s1.SendAll(NotifyMembers(s1, q.server, |s1.sessions|)), n + 1);
  }

  lemma ListFits(s: State, i: nat, p: Packet, n: nat)
    requires Good(s) && Fits(s, n) && n < INT_LIMIT && i < |s.sessions| && p.payload.Server? && !IsTableAction(p.payload.action) && FitsPacket(p)
    ensures StepFits(s, HandleServer(s, i, p), n)
  {
    hide Good, Fits, AllServers, JoinedServers, ServerChannels, MemberStream, FitsPayload, ServerResponse, ListStream, Collected, StepFits, Into, ToInt, State.Send, State.SendAll;
    var c, q := s.sessions[i], p.payload;
    ServerRequestFits(p);
    RepliesFit(q.action, RESP_ERR_UNAUTHORIZED);
    RepliesFit(q.action, RESP_ERR_INVALID);
    hide FitsPacket;
    ReplyFits(s, c.fd, ServerResponse(q.action, RESP_ERR_UNAUTHORIZED), n);
    ReplyFits(s, c.fd, ServerResponse(q.action, RESP_ERR_INVALID), n);
    ServerListsFit(s, c, q.action, q.server, n);
    MembersListFits(s, i, q.server, n);
  }

  lemma ServerRequestFits(p: Packet)
    requires p.payload.Server? && FitsPacket(p)
    ensures IsInt32(p.payload.action)
  {}

  lemma ServerListsFit(s: State, c: Session, action: int, server: int, n: nat)
    requires Fits(s, n) && n < INT_LIMIT && IsInt32(action)
    ensures StepFits(s, s.SendAll(Into(c.fd, ListStream(action, Collected(AllServers(s.tables), MAX_SERVERS)))), n)
    ensures StepFits(s, s.SendAll(Into(c.fd, ListStream(action, Collected(JoinedServers(s.tables, c.id), MAX_SERVERS)))), n)
    ensures StepFits(s, s.SendAll(Into(c.fd, ListStream(action, Collected(ServerChannels(s.tables, server), MAX_CHANNELS)))), n)
  {
    ServersFit(s.tables, c.id, n);
    ChannelsFit(s.tables, server, n);
    hide Fits, AllServers, JoinedServers, ServerChannels, ItemsFit, ListStream, Collected, StepFits, Into;
    ListFitsIn(s, s, c.fd, action, AllServers(s.tables), MAX_SERVERS, n);
    ListFitsIn(s, s, c.fd, action, JoinedServers(s.tables, c.id), MAX_SERVERS, n);
    ListFitsIn(s, s, c.fd, action, ServerChannels(s.tables, server), MAX_CHANNELS, n);
  }

  lemma MembersListFits(s: State, i: nat, server: int, n: nat)
    requires Good(s) && Fits(s, n) && n < INT_LIMIT && i < |s.sessions|
    ensures var c := s.sessions[i];
            var s1 := s.(sessions := s.sessions[i := c.(currentServer := ToInt(server))]);
            StepFits(s, s1.SendAll(Into(c.fd, MemberStream(s, server))), n)
  {
    var c := s.sessions[i];
    MembersFit(s, server, n);
    hide Good, Fits, ServerMembers, ItemsFit, ListStream, Collected, StepFits, Into;
    var s1 := s.(sessions := s.sessions[i := c.(currentServer := ToInt(server))]);
    ListFitsIn(s, s1, c.fd, SERVER_LIST_MEMBERS, ServerMembers(s.tables, s.users, s.sessions, server), MAX_SERVER_MEMBERS, n);
  }

  lemma ListFitsIn(s: State, s1: State, fd: int, action: int, rows: seq<Item>, limit: nat, n: nat)
    requires Fits(s, n) && IsInt32(action) && ItemsFit(rows) && limit <= 64 && s1 == s.(sessions := s1.sessions)
    ensures StepFits(s, s1.SendAll(Into(fd, ListStream(action, Collected(rows, limit)))), n)
  {
    hide Fits, ItemsFit, ListStream, Collected, FitsPacket, Into;
    ListStreamFits(action, rows, limit);
    SameTablesFit(s, s1, n);
    StreamFits(s1, fd, ListStream(action, Collected(rows, limit)), n);
  }

  lemma ServerFits(s: State, i: nat, p: Packet, n: nat)
    requires Good(s) && Fits(s, n) && n < INT_LIMIT && i < |s.sessions| && p.payload.Server? && FitsPacket(p)
    ensures StepFits(s, HandleServer(s, i, p), n)
  {
    hide Good, Fits, HandleTable, StepFits;
    if IsTableAction(p.payload.action) {
      TableFits(s, i, p.payload, n);
    } else {
      ListFits(s, i, p, n);
    }
  }

  lemma ChannelRequestFits(s: State, i: nat, p: Packet, n: nat)
    requires Good(s) && Fits(s, n) && n < INT_LIMIT && i < |s.sessions| && p.payload.Channel? && FitsPacket(p)
    ensures StepFits(s, HandleChannel(s, i, p), n)
  {
    var c, q := s.sessions[i], p.payload;
    hide Good, Fits, Store.Perform, Broadcast, StepFits, ChannelStream, FitsPacket;
    if q.action == CHANNEL_MESSAGE {
      SaidFits(s, i, p, n);
    } else if q.action == CHANNEL_CREATE {
      MadeFits(s, i, p, n);
    } else if q.action == CHANNEL_DELETE {
      DroppedFits(s, i, p, n);
    } else if q.action == CHANNEL_HISTORY_REQUEST {
      ChannelOfFits(p);
      ChannelPacketsFit(s, q.channel, n);
      StreamFits(s, c.fd, ChannelStream(s, q.channel), n);
    } else {
      UnchangedFits(s, s, n);
    }
  }

  lemma ChannelOfFits(p: Packet)
    requires p.payload.Channel? && FitsPacket(p)
    ensures IsInt64(p.payload.channel) && IsText(p.payload.text) && IsText(p.payload.name)
  {}

  lemma SaidFits(s: State, i: nat, p: Packet, n: nat)
    requires Good(s) && Fits(s, n) && n < INT_LIMIT && i < |s.sessions| && p.payload.Channel? && FitsPacket(p)
    requires p.payload.action == CHANNEL_MESSAGE
    ensures StepFits(s, HandleChannel(s, i, p), n)
  {
    var c, q := s.sessions[i], p.payload;
    SessionFits(s, i, n);
    CutFits(c.username, NAME_LEN);
    assert FitsPacket(Stamped(p, c));
    hide Good, Fits, Store.Perform, Broadcast, FitsPacket, FitLog, OutFits, IsText, Stamped;
    ChannelOfFits(p);
    BroadcastFits(s.sessions, Stamped(p, c), |s.sessions|);
    FitAppend(s.sent, Broadcast(s.sessions, Stamped(p, c), |s.sessions|));
    var op := OpOf(s, c, Store.Post(q.channel, q.text));
    NewTablesFit(s, op, n);
    SameTablesFit(s.(tables := Store.Perform(op, s.tables).1), HandleChannel(s, i, p), n + 1);
  }

  lemma MadeFits(s: State, i: nat, p: Packet, n: nat)
    requires Good(s) && Fits(s, n) && n < INT_LIMIT && i < |s.sessions| && p.payload.Channel? && FitsPacket(p)
    requires p.payload.action == CHANNEL_CREATE
    ensures StepFits(s, HandleChannel(s, i, p), n)
  {
    var c, q := s.sessions[i], p.payload;
    var op := OpOf(s, c, Store.AddChannel(q.server, q.name));
    var (code, tables) := Store.Perform(op, s.tables);
    ChannelFits(s.tables, q.server, q.name, n);
    CutFits(q.name, NAME_LEN);
    assert IsText("");
    var reply := Plain(Channel(CHANNEL_CREATE, q.server, CodeOf(code),
                               if code.Done? then NextId(Store.ChannelIds(s.tables.channels)) else 0,
                               if code.Done? then Truncated(q.name, NAME_LEN) else "", 0, ""));
    hide NextId, Store.Perform, TablesFit, IsText, Store.ChannelIds;
    assert FitsPacket(reply);
    ChannelOfFits(p);
    hide Good, Fits, FitsPacket, FitLog;
    NewTablesFit(s, op, n);
    NothingNew(s.sent);
    ThenSend(s, s.(tables := tables), c.fd, reply, n);
  }

  lemma DroppedFits(s: State, i: nat, p: Packet, n: nat)
    requires Good(s) && Fits(s, n) && n < INT_LIMIT && i < |s.sessions| && p.payload.Channel? && FitsPacket(p)
    requires p.payload.action == CHANNEL_DELETE
    ensures StepFits(s, HandleChannel(s, i, p), n)
  {
    var c, q := s.sessions[i], p.payload;
    var op := OpOf(s, c, Store.DropChannel(q.channel));
    hide Store.Perform, Good, Fits, FitLog;
    var (code, tables) := Store.Perform(op, s.tables);
    var reply := Plain(Channel(CHANNEL_DELETE, 0, CodeOf(code), q.channel, "", 0, ""));
    assert FitsPacket(reply);
    hide FitsPacket, IsText;
    NewTablesFit(s, op, n);
    NothingNew(s.sent);
    ThenSend(s, s.(tables := tables), c.fd, reply, n);
  }

  lemma FriendRequestFits(s: State, i: nat, action: int, name: string, n: nat)
    requires Good(s) && Fits(s, n) && n < INT_LIMIT && i < |s.sessions| && IsFriendAction(action)
    ensures StepFits(s, HandleFriend(s, i, action, name), n)
  {
    hide Good, Fits, FitLog, Perform, NotifyFriends, NameTaken, IdOf, SocialResponse, FitsPacket;
    var c, other := s.sessions[i], IdOf(s.users, name);
    var op := FriendOp(VerbOf(action), c.id, other, s.Ids());
    var (rc, friends) := Perform(op, s.friends);
    var s1 := s.(friends := friends);
    NewFriendsFit(s, op, n);
    GoodAfterFriends(s, op);
    NothingNew(s.sent);
    FriendRepliesFit(action, rc);
    if !NameTaken(s.users, name) {
      ReplyFits(s, c.fd, SocialResponse(action, RESP_ERR_NOT_FOUND), n);
    } else if action == SOCIAL_FRIEND_REQUEST && other == c.id {
      ReplyFits(s, c.fd, SocialResponse(action, RESP_ERR_INVALID), n);
    } else if rc < 0 {
      ThenSend(s, s1, c.fd, SocialResponse(action, FriendError(action, rc)), n);
    } else {
      ThenSend(s, s1, c.fd, SocialResponse(action, RESP_OK), n);
      var s2 := s1.Send(c.fd, SocialResponse(action, RESP_OK));
      LogIsIrrelevant(s1, s2.sent);
      PushFits(s, s2, c.id, n);
      var s3 := if rc == 1 then s2.SendAll(NotifyFriends(s2, c.id)) else s2;
      LogIsIrrelevant(s2, s3.sent);
      PushFits(s, s3, other, n);
    }
  }

  lemma FriendRepliesFit(action: int, rc: int)
    requires IsFriendAction(action)
    ensures FitsPacket(SocialResponse(action, RESP_ERR_NOT_FOUND)) && FitsPacket(SocialResponse(action, RESP_ERR_INVALID))
    ensures FitsPacket(SocialResponse(action, FriendError(action, rc))) && FitsPacket(SocialResponse(action, RESP_OK))
  {}

  lemma NewFriendsFit(s: State, op: FriendOp, n: nat)
    requires Fits(s, n)
    ensures Fits(s.(friends := Perform(op, s.friends).1), n + 1)
  {
    FriendsGrow(op, s.friends);
    FitsMore(s, n, n + 1);
    hide UsersFit, TablesFit, DmsFit, Perform;
  }

  lemma GoodAfterFriends(s: State, op: FriendOp)
    requires Good(s) && op.known == s.Ids()
    ensures Good(s.(friends := Perform(op, s.friends).1))
  {
    NewFriendsKeepDatabase(s, op);
    hide DatabaseOk, SessionsOk, Perform;
  }

  lemma PushFits(s: State, s1: State, user: int, n: nat)
    requires Good(s1) && StepFits(s, s1, n) && n < INT_LIMIT
    ensures StepFits(s, s1.SendAll(NotifyFriends(s1, user)), n)
  {
    hide Good, Fits, FitLog, NotifyFriends;
    FriendPushFits(s1, user, n + 1);
    FitTrans(s.sent, s1.sent, s1.sent + NotifyFriends(s1, user));
    SameTablesFit(s1, s1.SendAll(NotifyFriends(s1, user)), n + 1);
  }

  lemma UpdateFits(s: State, i: nat, profile: string, n: nat)
    requires Good(s) && Fits(s, n) && n < INT_LIMIT && i < |s.sessions| && IsText(profile)
    ensures StepFits(s, UpdateStatus(s, i, profile), n)
  {
    var c := s.sessions[i];
    SessionFits(s, i, n);
    StatusFits(RESP_OK, c.id, c.username, profile, Online(s.sessions, c.id), n);
    assert IsText("");
    StatusFits(RESP_ERR_INVALID, c.id, c.username, "", true, n);
    StatusFits(RESP_ERR_DB, c.id, c.username, "", true, n);
    hide Good, Online, StatusPacket, FitsPacket, ToSessions, WithProfile, IsText, UserIds;
    var p := StatusPacket(RESP_OK, c.id, c.username, profile, Online(s.sessions, c.id));
    ProfileFits(s.users, c.id, profile, n);
    BroadcastFits(s.sessions, p, |s.sessions|);
    FitAppend(s.sent, ToSessions(s.sessions, p, |s.sessions|));
    var s1 := s.(users := WithProfile(s.users, c.id, profile));
    assert Fits(s1, n);
    hide UsersFit, TablesFit, DmsFit, FitLog, Fits;
    FitsMore(s1, n, n + 1);
    SameTablesFit(s1, s1.SendAll(ToSessions(s.sessions, p, |s.sessions|)), n + 1);
    ReplyFits(s, c.fd, StatusPacket(RESP_ERR_INVALID, c.id, c.username, "", true), n);
    ReplyFits(s, c.fd, StatusPacket(RESP_ERR_DB, c.id, c.username, "", true), n);
  }

  lemma SocialFits(s: State, i: nat, p: Packet, n: nat)
    requires Good(s) && Fits(s, n) && n < INT_LIMIT && i < |s.sessions| && p.payload.Social? && FitsPacket(p)
    ensures StepFits(s, HandleSocial(s, i, p), n)
  {
    var c, action := s.sessions[i], p.payload.action;
    RepliesFit(action, RESP_ERR_UNAUTHORIZED);
    RepliesFit(action, RESP_ERR_INVALID);
    UpdateFits(s, i, p.payload.profile, n);
    if IsFriendAction(action) {
      FriendRequestFits(s, i, action, p.payload.name, n);
    }
    FriendStreamFits(s, c.id, n);
    UserStreamFits(s.sessions, s.users, n);
    hide Good, Fits, HandleFriend, UpdateStatus, FriendListing, FriendListStream, UserListStream, SocialResponse, FitsPacket, StepFits, Into;
    StreamFits(s, c.fd, FriendListStream(FriendListing(s.friends, s.users, c.id)), n);
    StreamFits(s, c.fd, UserListStream(s.sessions, s.users), n);
    ReplyFits(s, c.fd, SocialResponse(action, RESP_ERR_UNAUTHORIZED), n);
    ReplyFits(s, c.fd, SocialResponse(action, RESP_ERR_INVALID), n);
  }

  lemma EventFits(s: State, e: Event, n: nat)
    requires Good(s) && Fits(s, n) && n < INT_LIMIT && Enabled(s, e) && RequestFits(e)
    ensures StepFits(s, Step(s, e), n)
  {
    hide Good, Fits, StepFits, FitsPacket, HandleAuth, HandleDm, HandleServer, HandleChannel, HandleSocial, Disconnect;
    match e
    case Accept(fd) => UnchangedFits(s, Connect(s, fd), n);
    case Hangup(i) => HangupFits(s, i, n);
    case Request(i, p, hashOk) =>
      match p.payload
      case Auth(_, _, _, _) => AuthFits(s, i, p, hashOk, n);
      case Dm(_, _, _, _, _) => DmFits(s, i, p, n);
      case Server(_, _, _, _, _, _) => ServerFits(s, i, p, n);
      case Channel(_, _, _, _, _, _, _) => ChannelRequestFits(s, i, p, n);
      case Social(_, _, _, _, _, _) => SocialFits(s, i, p, n);
  }

  /** In every run in which ids and numbers of rows stay within 31 bits, every packet that the server sends fits the C structure. */
  lemma {:induction false} EveryPacketFits(s: State, es: seq<Event>, n: nat)
    requires Good(s) && Runs(s, es) && Fits(s, n) && n + |es| <= INT_LIMIT && forall e :: e in es ==> RequestFits(e)
    ensures Fits(Run(s, es), n + |es|) && FitLog(s.sent, Run(s, es).sent)
    decreases |es|
  {
    hide Good, Step, Fits, FitLog, RequestFits;
    if es == [] {
      NothingNew(s.sent);
    } else {
      EventFits(s, es[0], n);
      StepKeepsGood(s, es[0]);
      EveryPacketFits(Step(s, es[0]), es[1..], n + 1);
      FitTrans(s.sent, Step(s, es[0]).sent, Run(s, es).sent);
    }
  }

  // ------------------------------------------------------------ what a client reads

  /** The packets of a socket with some values for the two fields that no program reads. */
  ghost predicate Carry(ls: seq<Letter>, ps: seq<Packet>) {
    |ls| == |ps| && forall i :: 0 <= i < |ls| ==> ls[i].packet == ps[i] && IsInt32(ls[i].listId) && IsInt64(ls[i].timestamp)
  }

  lemma {:induction false} PacketsOnFit(sent: seq<Out>, fd: int)
    requires FitLog([], sent)
    ensures forall p :: p in PacketsOn(sent, fd) ==> FitsPacket(p)
  {
    hide FitsPacket;
    if sent != [] {
      var front := sent[..|sent| - 1];
      forall k | 0 <= k < |front| ensures OutFits(front[k]) {
        assert sent[k] == front[k];
      }
      PacketsOnFit(front, fd);
      assert OutFits(sent[|sent| - 1]);
    }
  }

  lemma LettersFit(ls: seq<Letter>, ps: seq<Packet>)
    requires Carry(ls, ps) && forall p :: p in ps ==> FitsPacket(p)
    ensures forall l :: l in ls ==> l.Fits()
  {
    hide FitsPacket;
    forall l | l in ls ensures l.Fits() {
      var i :| 0 <= i < |ls| && ls[i] == l;
      assert ps[i] in ps;
    }
  }

  /** The images read are these packets. */
  ghost predicate ReadAs(little: bool, images: seq<seq<byte>>, ps: seq<Packet>) {
    |images| == |ps| && forall i :: 0 <= i < |images| ==> |images[i]| == PACKET_SIZE && PacketOf(little, images[i]) == ps[i]
  }

  /**
   From the log to the client: in every run of a server that starts without connections, whatever the two
   hosts and however the bytes of a socket are cut up, the blocking reader of the client hands on the packets
   that the log has for the socket, in order, less than one packet behind the bytes it has taken; when it has
   taken all of them, it has read exactly what the log says.
   */
  lemma ClientReadsLog(s: State, es: seq<Event>, n: nat, fd: int, from: bool, dest: bool, ls: seq<Letter>,
                       k: Stream.Inbound, buffer: seq<byte>)
    requires Good(s) && Runs(s, es) && s.sent == []
    requires Fits(s, n) && n + |es| <= INT_LIMIT && forall e :: e in es ==> RequestFits(e)
    requires Carry(ls, PacketsOn(Run(s, es).sent, fd)) && |buffer| == PACKET_SIZE
    ensures forall l :: l in ls ==> l.Fits()
    ensures var r, ps := Stream.ResumableSession(dest, k, buffer, 0), PacketsOn(Run(s, es).sent, fd);
            k.input <= Stream.WireOf(from, Images(from, ls)) ==>
              && Stream.BlockingSession(dest, Stream.AsBlocking(k), []).0 == r.packets
              && |r.packets| <= |ps| && ReadAs(dest, r.packets, ps[..|r.packets|])
              && |r.socket.input| <= |k.input|
              && PACKET_SIZE * |r.packets| <= |Stream.Taken(k, r.socket)| < PACKET_SIZE * |r.packets| + PACKET_SIZE
              && (|Stream.Taken(k, r.socket)| == PACKET_SIZE * |ps| ==> ReadAs(dest, r.packets, ps))
  {
    hide Good, Run, Runs, Fits, FitsPacket, RequestFits, PacketsOn, Images, PacketOf, Stream.ResumableSession, Stream.BlockingSession, Stream.AsBlocking, Stream.WireOf, Stream.Taken;
    EveryPacketFits(s, es, n);
    var ps := PacketsOn(Run(s, es).sent, fd);
    PacketsOnFit(Run(s, es).sent, fd);
    LettersFit(ls, ps);
    PacketsArriveInOrder(from, dest, ls, k, buffer);
    Stream.ReadersAgree(dest, k, buffer, 0);
    assert buffer[..0] == [];
    assert ps[..|ps|] == ps;
  }
}
