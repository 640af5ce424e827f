/**
 The server panel of a client against this server: no number that the server sends makes an index leave
 its array, and the answer to a list request leaves the panel with what the tables hold.
 */
module PanelView {
  import opened Names
  import opened Protocol
  import opened Friends
  import Store
  import opened Listing
  import opened Server
  import opened Invariants
  import opened Traffic
  import opened Lifecycle
  import opened Rules

  // ------------------------------------------------------------ the numbers in the log

  /** No packet of the log carries a negative count. */
  ghost predicate CountsSent(sent: seq<Out>) {
    forall o :: o in sent && o.Sent? ==> CountOk(o.packet)
  }

  lemma AsideKeepsCounts(a: seq<Out>, b: seq<Out>, kind: Kind)
    requires AsideLog(a, b, kind) && CountsSent(a)
    ensures CountsSent(b)
  {
    forall o | o in b && o.Sent? ensures CountOk(o.packet) {
      var k :| 0 <= k < |b| && b[k] == o;
      if k < |a| {
        assert a[k] in a;
      }
    }
  }

  lemma AccountsKeepCounts(a: seq<Out>, b: seq<Out>)
    requires AccountLog(a, b) && CountsSent(a)
    ensures CountsSent(b)
  {
    forall o | o in b && o.Sent? ensures CountOk(o.packet) {
      var k :| 0 <= k < |b| && b[k] == o;
      if k < |a| {
        assert a[k] in a;
      }
    }
  }

  lemma StepKeepsCounts(s: State, e: Event)
    requires Enabled(s, e) && CountsSent(s.sent)
    ensures CountsSent(Step(s, e).sent)
  {
    hide HandleAuth, HandleDm, HandleServer, HandleChannel, HandleSocial, Announce, AsideLog, AccountLog;
    var s' := Step(s, e);
    match e
    case Accept(_) =>
    case Hangup(i) =>
      var s1 := s.(sessions := s.sessions[..i] + s.sessions[i + 1..]);
      AnnounceLog(s1, s.sessions[i].id);
      AccountsKeepCounts(s.sent, Announce(s1, s.sessions[i].id).sent);
    case Request(i, p, hashOk) =>
      match p.payload
      case Auth(_, _, _, _) =>
        AuthLog(s, i, p, hashOk);
        AccountsKeepCounts(s.sent, s'.sent);
      case Dm(_, _, _, _, _) =>
        DmAside(s, i, p);
        AsideKeepsCounts(s.sent, s'.sent, Dms);
      case Server(_, _, _, _, _, _) =>
        ServerAside(s, i, p);
        AsideKeepsCounts(s.sent, s'.sent, Servers);
      case Channel(_, _, _, _, _, _, _) =>
        ChannelAside(s, i, p);
        AsideKeepsCounts(s.sent, s'.sent, Channels);
      case Social(_, _, _, _, _, _) =>
        SocialAside(s, i, p);
        AsideKeepsCounts(s.sent, s'.sent, Socials);
  }

  lemma {:induction false} CountsInEveryRun(s: State, es: seq<Event>)
    requires Runs(s, es) && CountsSent(s.sent)
    ensures CountsSent(Run(s, es).sent)
    decreases |es|
  {
    hide Step, CountsSent;
    if es != [] {
      StepKeepsCounts(s, es[0]);
      CountsInEveryRun(Step(s, es[0]), es[1..]);
    }
  }

  /**
   Against this server no index leaves the panel's arrays: in every run, from any panel without negative
   counts, for all packets sent on one socket, in any order, with any choices of a server in between.
   */
  lemma PanelStaysInside(s: State, es: seq<Event>, fd: int, panel: Panel, moves: seq<Move>)
    requires Runs(s, es) && CountsSent(s.sent) && PanelOk(panel) && CountsOk(panel)
    requires forall m :: m in moves && m.Frame? ==> IsListPacket(m.packet) && Sent(fd, m.packet) in Run(s, es).sent
    ensures MoveAll(panel, moves).Fine?
  {
    CountsInEveryRun(s, es);
    hide Run, Runs, CountOk, IsListPacket;
    forall m | m in moves && m.Frame? ensures CountOk(m.packet) {
      assert Sent(fd, m.packet) in Run(s, es).sent;
    }
    CountsKeepIndicesInside(panel, moves);
  }

  // ------------------------------------------------------------ requests and what the client shows

  predicate IsServerRequest(p: Packet, action: int) {
    p.payload.Server? && p.payload.action == action
  }

  /** What the client shows of a row of the servers table. */
  function UiServerOf(t: Store.Tables, x: Store.ServerRow): UiServer {
    UiServer(ToInt(x.id), Truncated(x.name, NAME_LEN), Size(t, x.id), NoMembers(), [])
  }

  /** The event sends the packets `ps` on one socket, and nothing else. */
  predicate AnsweredBy(s: State, s': State, fd: int, ps: seq<Packet>) {
    s'.sent == s.sent + Into(fd, ps)
  }

  /** What a list of capacity `cap` shows of sorted rows: made from rows, and all of them if they fit. */
  lemma ShownRows<T>(rows: seq<Item>, cap: nat, make: Item -> T)
    ensures forall x :: x in Shown(rows, cap, make) ==> exists i :: i in rows && x == make(i.Cut())
    ensures |rows| <= cap ==> forall i :: i in rows ==> make(i.Cut()) in Shown(rows, cap, make)
  {
    forall x | x in Shown(rows, cap, make) ensures exists i :: i in rows && x == make(i.Cut()) {
      var k :| 0 <= k < |Shown(rows, cap, make)| && Shown(rows, cap, make)[k] == x;
      assert First(rows, cap)[k] == rows[k] && rows[k] in rows;
    }
    if |rows| <= cap {
      forall i | i in rows ensures make(i.Cut()) in Shown(rows, cap, make) {
        var k :| 0 <= k < |rows| && rows[k] == i;
        assert Shown(rows, cap, make)[k] == make(i.Cut());
      }
    }
  }

  lemma ServerRequestAnswered(s: State, i: nat, p: Packet, action: int)
    requires i < |s.sessions| && s.sessions[i].authenticated && IsServerRequest(p, action)
    requires action == SERVER_LIST || action == SERVER_LIST_JOINED
    ensures var rows := if action == SERVER_LIST then AllServers(s.tables) else JoinedServers(s.tables, s.sessions[i].id);
            AnsweredBy(s, HandleServer(s, i, p), s.sessions[i].fd, ListStream(action, Collected(rows, MAX_SERVERS)))
  {
    hide ListStream, AllServers, JoinedServers, Collected, Into;
  }

  /** Whether a row of the servers table belongs in the answer to a request. */
  ghost predicate IsAsked(t: Store.Tables, action: int, user: int, x: Store.ServerRow) {
    x in t.servers && (action == SERVER_LIST || HasMember(t, x.id, user))
  }

  /** The servers that a request asks for. */
  ghost function AskedFor(t: Store.Tables, action: int, user: int): set<Store.ServerRow> {
    set x | x in t.servers && IsAsked(t, action, user, x)
  }

  /**
   A request for all servers, or for the user's own, is answered by packets that leave the panel with
   exactly such servers, each with its name and its number of members; all of them, if there are at most 8.
   */
  lemma ServersShownAreTrue(s: State, i: nat, p: Packet, action: int, panel: Panel)
    requires Good(s) && i < |s.sessions| && s.sessions[i].authenticated && IsServerRequest(p, action) && PanelOk(panel)
    requires action == SERVER_LIST || action == SERVER_LIST_JOINED
    ensures exists ps :: AreListPackets(ps) && AnsweredBy(s, HandleServer(s, i, p), s.sessions[i].fd, ps)
                         && ServersTrue(s.tables, action, s.sessions[i].id, UpdateAll(panel, ps))
  {
    var user := s.sessions[i].id;
    var rows := if action == SERVER_LIST then AllServers(s.tables) else JoinedServers(s.tables, user);
    var ps := ListStream(action, Collected(rows, MAX_SERVERS));
    ServerRequestAnswered(s, i, p, action);
    ServerListRoundTrip(panel, action, rows);
    GoodChannels(s);
    RowsTrue(s.tables, s.Ids(), action, user);
    hide Good, AllServers, JoinedServers, ListStream, HandleServer, UpdateAll, Shown;
    assert AreListPackets(ps);
  }

  /** The panel shows servers that were asked for, as they are; all of them if there is room. */
  ghost predicate ServersTrue(t: Store.Tables, action: int, user: int, outcome: Outcome) {
    && outcome.Fine?
    && (forall u :: u in outcome.panel.servers ==> exists x :: IsAsked(t, action, user, x) && u == UiServerOf(t, x))
    && (|AskedFor(t, action, user)| <= UI_MAX_SERVERS ==> forall x :: IsAsked(t, action, user, x) ==> UiServerOf(t, x) in outcome.panel.servers)
  }

  /** The entry of a row. */
  function EntryOf(t: Store.Tables, x: Store.ServerRow): Item {
    Item(x.id, x.name, Size(t, x.id))
  }

  lemma RowsTrue(t: Store.Tables, users: seq<int>, action: int, user: int)
    requires Store.TablesOk(t, users) && (action == SERVER_LIST || action == SERVER_LIST_JOINED)
    ensures var shown := Shown(if action == SERVER_LIST then AllServers(t) else JoinedServers(t, user), UI_MAX_SERVERS, ServerOf);
            && (forall u :: u in shown ==> exists x :: IsAsked(t, action, user, x) && u == UiServerOf(t, x))
            && (|AskedFor(t, action, user)| <= UI_MAX_SERVERS ==> forall x :: IsAsked(t, action, user, x) ==> UiServerOf(t, x) in shown)
  {
    var rows := if action == SERVER_LIST then AllServers(t) else JoinedServers(t, user);
    var shown := Shown(rows, UI_MAX_SERVERS, ServerOf);
    ShownRows(rows, UI_MAX_SERVERS, ServerOf);
    RowsAsked(t, users, action, user);
    hide AllServers, JoinedServers, Shown, IsAsked, AskedFor, Size, Store.TablesOk;
    forall u | u in shown ensures exists x :: IsAsked(t, action, user, x) && u == UiServerOf(t, x) {
      var r :| r in rows && u == ServerOf(r.Cut());
      var x :| IsAsked(t, action, user, x) && r == EntryOf(t, x);
      assert u == UiServerOf(t, x);
    }
    if |AskedFor(t, action, user)| <= UI_MAX_SERVERS {
      forall x | IsAsked(t, action, user, x) ensures UiServerOf(t, x) in shown {
        assert EntryOf(t, x) in rows;
        assert ServerOf(EntryOf(t, x).Cut()) == UiServerOf(t, x);
      }
    }
  }

  lemma AskedCount(t: Store.Tables, users: seq<int>, action: int, user: int)
    requires Store.TablesOk(t, users)
    ensures |AskedFor(t, action, user)| == if action == SERVER_LIST then |t.servers| else |set x | x in t.servers && HasMember(t, x.id, user)|
  {
    hide HasMember;
    if action == SERVER_LIST {
      forall i, j | 0 <= i < j < |t.servers| ensures t.servers[i] != t.servers[j] {
        assert Store.ServersDiffer(t.servers[i], t.servers[j]);
      }
      FilterCounts((x: Store.ServerRow) => true, t.servers);
      FilterEverything((x: Store.ServerRow) => true, t.servers);
      assert KeptOf((x: Store.ServerRow) => true, t.servers) == AskedFor(t, action, user);
      hide Filter;
    } else {
      assert AskedFor(t, action, user) == set x | x in t.servers && HasMember(t, x.id, user);
    }
  }

  lemma RowsAsked(t: Store.Tables, users: seq<int>, action: int, user: int)
    requires Store.TablesOk(t, users) && (action == SERVER_LIST || action == SERVER_LIST_JOINED)
    ensures var rows := if action == SERVER_LIST then AllServers(t) else JoinedServers(t, user);
            && |rows| == |AskedFor(t, action, user)|
            && (forall r :: r in rows ==> exists x :: IsAsked(t, action, user, x) && r == EntryOf(t, x))
            && (forall x :: IsAsked(t, action, user, x) ==> EntryOf(t, x) in rows)
  {
    var rows := if action == SERVER_LIST then AllServers(t) else JoinedServers(t, user);
    AskedCount(t, users, action, user);
    AllServersAreExact(t, users, Item(0, "", 0));
    JoinedServersAreExact(t, users, user, Item(0, "", 0));
    hide AskedFor, AllServers, JoinedServers, Store.TablesOk, SortedBy, Size, HasMember;
    forall r | r in rows ensures exists x :: IsAsked(t, action, user, x) && r == EntryOf(t, x) {
      AllServersAreExact(t, users, r);
      JoinedServersAreExact(t, users, user, r);
      var x :| x in t.servers && (action == SERVER_LIST || HasMember(t, x.id, user)) && r == Item(x.id, x.name, Size(t, x.id));
      assert IsAsked(t, action, user, x);
    }
    forall x | IsAsked(t, action, user, x) ensures EntryOf(t, x) in rows {
      AllServersAreExact(t, users, EntryOf(t, x));
      JoinedServersAreExact(t, users, user, EntryOf(t, x));
    }
  }

  /** The rows of a member list as a client shows them. */
  function UiMembersOf(t: Store.Tables, users: seq<UserRow>, sessions: seq<Session>, server: int): seq<UiMember> {
    Shown(ServerMembers(t, users, sessions, server), UI_MAX_MEMBERS, MemberOf)
  }

  /** A request for the members of a server leaves the active server with the first 16 of them, and every other server alone. */
  lemma MembersShownAreTrue(s: State, i: nat, p: Packet, panel: Panel)
    requires i < |s.sessions| && s.sessions[i].authenticated && IsServerRequest(p, SERVER_LIST_MEMBERS) && p.payload.server > 0
    requires PanelOk(panel) && 0 <= panel.active < |panel.servers|
    ensures exists ps :: AreListPackets(ps) && AnsweredBy(s, HandleServer(s, i, p), s.sessions[i].fd, ps)
                         && ShowsMembers(panel, UpdateAll(panel, ps), UiMembersOf(s.tables, s.users, s.sessions, p.payload.server))
  {
    var rows := ServerMembers(s.tables, s.users, s.sessions, p.payload.server);
    var ps := ListStream(SERVER_LIST_MEMBERS, Collected(rows, MAX_SERVER_MEMBERS));
    MembersGrow(panel, ps);
    GrowsToRows([], UI_MAX_MEMBERS, SERVER_LIST_MEMBERS, rows, MAX_SERVER_MEMBERS, MemberOf);
    MemberRequestAnswered(s, i, p);
    hide ServerMembers, ListStream, HandleServer, UpdateAll, Shown, GrownAll, ShowsMembers;
    assert AreListPackets(ps);
  }

  lemma MemberRequestAnswered(s: State, i: nat, p: Packet)
    requires i < |s.sessions| && s.sessions[i].authenticated && IsServerRequest(p, SERVER_LIST_MEMBERS) && p.payload.server > 0
    ensures var rows := ServerMembers(s.tables, s.users, s.sessions, p.payload.server);
            AnsweredBy(s, HandleServer(s, i, p), s.sessions[i].fd, ListStream(SERVER_LIST_MEMBERS, Collected(rows, MAX_SERVER_MEMBERS)))
  {
    hide ListStream, ServerMembers, Collected, Into;
  }

  /** The shown members are members, with their own flags; all of them if there are at most 16. */
  lemma UiMembersAreTrue(t: Store.Tables, users: seq<UserRow>, sessions: seq<Session>, server: int)
    requires Store.TablesOk(t, UserIds(users))
    ensures var shown := UiMembersOf(t, users, sessions, server);
            && (forall u :: u in shown ==> exists m :: m in t.members && m.server == server && u == UiMemberOf(users, sessions, m))
            && (Size(t, server) <= UI_MAX_MEMBERS ==>
                  forall m :: m in t.members && m.server == server ==> UiMemberOf(users, sessions, m) in shown)
  {
    var rows, shown := ServerMembers(t, users, sessions, server), UiMembersOf(t, users, sessions, server);
    ShownRows(rows, UI_MAX_MEMBERS, MemberOf);
    MembersAreExact(t, users, sessions, server, Item(0, "", 0));
    hide ServerMembers, Shown, Online, NameOf, Store.TablesOk, Size, UserIds, SortedBy;
    forall u | u in shown ensures exists m :: m in t.members && m.server == server && u == UiMemberOf(users, sessions, m) {
      var r :| r in rows && u == MemberOf(r.Cut());
      MembersAreExact(t, users, sessions, server, r);
      var m :| m in t.members && m.server == server && r == Item(m.user, NameOf(users, m.user), MemberFlags(m.admin, Online(sessions, m.user)));
      MemberItemShown(users, sessions, m);
    }
    if Size(t, server) <= UI_MAX_MEMBERS {
      forall m | m in t.members && m.server == server ensures UiMemberOf(users, sessions, m) in shown {
        var r := Item(m.user, NameOf(users, m.user), MemberFlags(m.admin, Online(sessions, m.user)));
        MembersAreExact(t, users, sessions, server, r);
        MemberItemShown(users, sessions, m);
      }
    }
  }

  /** What the client shows of a row of the members table. */
  function UiMemberOf(users: seq<UserRow>, sessions: seq<Session>, m: Store.MemberRow): UiMember {
    UiMember(m.user, Truncated(NameOf(users, m.user), NAME_LEN), m.admin, Online(sessions, m.user))
  }

  lemma MemberItemShown(users: seq<UserRow>, sessions: seq<Session>, m: Store.MemberRow)
    ensures MemberOf(Item(m.user, NameOf(users, m.user), MemberFlags(m.admin, Online(sessions, m.user))).Cut()) == UiMemberOf(users, sessions, m)
  {
    FlagsSurvive(m.admin, Online(sessions, m.user));
  }

  /** The channels of the active server: those of the tables, all of them if there are at most 5, and nothing else has changed. */
  ghost predicate ShowsChannels(was: Panel, outcome: Outcome, t: Store.Tables, server: int)
    requires 0 <= was.active < |was.servers|
  {
    && outcome.Fine? && |outcome.panel.servers| == |was.servers|
    && var shown := outcome.panel.servers[was.active].channels;
    && outcome.panel == was.(servers := was.servers[was.active := was.servers[was.active].(channels := shown)])
    && (forall u :: u in shown ==> exists c :: c in t.channels && c.server == server && u == UiChannel(c.id, Truncated(c.name, NAME_LEN)))
    && (|set c | c in t.channels && c.server == server| <= UI_MAX_CHANNELS ==>
          forall c :: c in t.channels && c.server == server ==> UiChannel(c.id, Truncated(c.name, NAME_LEN)) in shown)
  }

  lemma ShownChannels(t: Store.Tables, users: seq<int>, server: int)
    requires Store.TablesOk(t, users)
    ensures var shown := Shown(ServerChannels(t, server), UI_MAX_CHANNELS, ChannelOf);
            && (forall u :: u in shown ==> exists c :: c in t.channels && c.server == server && u == UiChannel(c.id, Truncated(c.name, NAME_LEN)))
            && (|set c | c in t.channels && c.server == server| <= UI_MAX_CHANNELS ==>
                  forall c :: c in t.channels && c.server == server ==> UiChannel(c.id, Truncated(c.name, NAME_LEN)) in shown)
  {
    var rows, shown := ServerChannels(t, server), Shown(ServerChannels(t, server), UI_MAX_CHANNELS, ChannelOf);
    ShownRows(rows, UI_MAX_CHANNELS, ChannelOf);
    ChannelsAreExact(t, users, server, Item(0, "", 0));
    hide ServerChannels, Shown, Store.TablesOk, SortedBy;
    forall u | u in shown ensures exists c :: c in t.channels && c.server == server && u == UiChannel(c.id, Truncated(c.name, NAME_LEN)) {
      var r :| r in rows && u == ChannelOf(r.Cut());
      ChannelsAreExact(t, users, server, r);
      var c :| c in t.channels && c.server == server && r == Item(c.id, c.name, 0);
    }
    if |set c | c in t.channels && c.server == server| <= UI_MAX_CHANNELS {
      forall c | c in t.channels && c.server == server ensures UiChannel(c.id, Truncated(c.name, NAME_LEN)) in shown {
        ChannelsAreExact(t, users, server, Item(c.id, c.name, 0));
      }
    }
  }

  lemma ChannelRequestAnswered(s: State, i: nat, p: Packet)
    requires i < |s.sessions| && IsServerRequest(p, SERVER_LIST_CHANNELS)
    ensures var fd, server := s.sessions[i].fd, p.payload.server;
            if server > 0 && s.sessions[i].authenticated
            then AnsweredBy(s, HandleServer(s, i, p), fd, ListStream(SERVER_LIST_CHANNELS, Collected(ServerChannels(s.tables, server), MAX_CHANNELS)))
            else AnsweredBy(s, HandleServer(s, i, p), fd,
                            [Plain(Server(SERVER_LIST_CHANNELS, 0, 0, if server <= 0 then RESP_ERR_INVALID else RESP_ERR_UNAUTHORIZED, 0, ""))])
  {
    hide ListStream, ServerChannels, Collected;
  }

  /**
   A request for the channels of a server leaves the active server of the panel with channels of exactly the
   server asked for, all of them if there are at most 5; without a login or a positive id it is answered by
   one error and no list.
   */
  lemma ChannelsShownAreTrue(s: State, i: nat, p: Packet, panel: Panel)
    requires Good(s) && i < |s.sessions| && IsServerRequest(p, SERVER_LIST_CHANNELS) && PanelOk(panel) && 0 <= panel.active < |panel.servers|
    ensures var s', fd, server := HandleServer(s, i, p), s.sessions[i].fd, p.payload.server;
            if server > 0 && s.sessions[i].authenticated
            then exists ps :: AreListPackets(ps) && AnsweredBy(s, s', fd, ps) && ShowsChannels(panel, UpdateAll(panel, ps), s.tables, server)
            else AnsweredBy(s, s', fd, [Plain(Server(SERVER_LIST_CHANNELS, 0, 0, if server <= 0 then RESP_ERR_INVALID else RESP_ERR_UNAUTHORIZED, 0, ""))])
  {
    var ps := ListStream(SERVER_LIST_CHANNELS, Collected(ServerChannels(s.tables, p.payload.server), MAX_CHANNELS));
    GoodChannels(s);
    ChannelRequestAnswered(s, i, p);
    ChannelListRoundTrip(panel, ServerChannels(s.tables, p.payload.server));
    ShownChannels(s.tables, s.Ids(), p.payload.server);
    hide ServerChannels, ListStream, HandleServer, UpdateAll, Shown, Good, AnsweredBy;
    assert AreListPackets(ps);
  }
}
