/**
 List streams: the bounded accumulators of `server/tizcord_server.c`, the framing of
 `send_list_response` in `server/client_helper.c`, and the panel that `ui_update_server_state`
 in `client/ui.c` rebuilds from the frames.
 */
module Listing {
  import opened Names
  import opened Protocol

  const MAX_SERVERS: nat := 16
  const MAX_CHANNELS: nat := 16
  const MAX_SERVER_MEMBERS: nat := 64
  const UI_MAX_SERVERS: nat := 8
  const UI_MAX_CHANNELS: nat := 5
  const UI_MAX_MEMBERS: nat := 16

  // ------------------------------------------------------------ the server's side

  /** A row of a list: an id, a name and an integer that travels in `member_count`. */
  datatype Item = Item(id: int, name: string, count: int) {
    function Cut(): Item {
      Item(id, Truncated(name, NAME_LEN), count)
    }
  }

  /** What a `collect_*_list_item` accumulator of capacity `cap` holds after all rows. */
  function Collected(rows: seq<Item>, cap: nat): (r: seq<Item>)
    ensures |r| <= cap
  {
    Map((i: Item) => i.Cut(), First(rows, cap))
  }

  function MemberFlags(admin: bool, online: bool): int {
    (if admin then 1 else 0) + (if online then 2 else 0)
  }

  /** `(flags & MEMBER_FLAG_ADMIN) != 0` */
  predicate IsAdminFlag(flags: int) {
    flags % 2 == 1
  }

  /** `(flags & MEMBER_FLAG_ONLINE) != 0` */
  predicate IsOnlineFlag(flags: int) {
    (flags / 2) % 2 == 1
  }

  function FrameOf(k: nat, n: nat): int {
    if n == 1 then LIST_FRAME_SINGLE
    else if k == 0 then LIST_FRAME_START
    else if k == n - 1 then LIST_FRAME_END
    else LIST_FRAME_MIDDLE
  }

  function ItemPacket(action: int, items: seq<Item>, k: nat): Packet
    requires k < |items|
  {
    Packet(0, k, |items|, FrameOf(k, |items|),
           Server(action, items[k].id, 0, RESP_OK, items[k].count, Truncated(items[k].name, NAME_LEN)))
  }

  /** The packets of one `send_list_response(fd, PACKET_SERVER, action, ...)`. */
  function ListStream(action: int, items: seq<Item>): (ps: seq<Packet>)
    ensures ps != [] && forall p :: p in ps ==> p.payload.Server? && p.payload.action == action
  {
    if items == [] then [Packet(0, -1, 0, LIST_FRAME_SINGLE, Server(action, 0, 0, RESP_DONE, 0, ""))]
    else seq(|items|, k requires 0 <= k < |items| => ItemPacket(action, items, k))
  }

  /** `collect_server_list_item` and its siblings, called row by row on fixed-size arrays. */
  method Collect(rows: seq<Item>, cap: nat) returns (items: seq<Item>, truncated: bool)
    ensures items == Collected(rows, cap)
    ensures truncated <==> |rows| > cap
  {
    var acc := new Item[cap](i => Item(0, "", 0));
    var count := 0;
    truncated := false;
    for k := 0 to |rows|
      invariant 0 <= count <= cap && count == |First(rows[..k], cap)|
      invariant acc[..count] == Collected(rows[..k], cap)
      invariant truncated <==> k > cap
    {
      if count >= cap {
        truncated := true;
      } else {
        acc[count] := rows[k].Cut();
        count := count + 1;
      }
    }
    assert rows[..|rows|] == rows;
    items := acc[..count];
  }

  // ------------------------------------------------------------ the client's side

  datatype UiChannel = UiChannel(id: int, name: string)
  datatype UiMember = UiMember(id: int, name: string, admin: bool, online: bool)

  /** A server of the panel; `memberCount` members of the 16 places are shown. */
  datatype UiServer = UiServer(id: int, name: string, memberCount: int, members: seq<UiMember>, channels: seq<UiChannel>)

  datatype Panel = Panel(servers: seq<UiServer>, active: int)

  /** The panel after a packet, or an index that has left its array; nothing holds of the program after that. */
  datatype Outcome = Fine(panel: Panel) | Overrun

  function NoMembers(): (s: seq<UiMember>)
    ensures |s| == UI_MAX_MEMBERS
  {
    seq(UI_MAX_MEMBERS, i => UiMember(0, "", false, false))
  }

  ghost predicate PanelOk(p: Panel) {
    && |p.servers| <= UI_MAX_SERVERS
    && forall s :: s in p.servers ==> |s.members| == UI_MAX_MEMBERS && |s.channels| <= UI_MAX_CHANNELS
  }

  /** A C `int`. */
  type CInt = v: int | -0x8000_0000 <= v < 0x8000_0000

  /** A C `int` assigned from a 64-bit value. */
  function ToInt(v: int): (r: CInt)
    ensures -0x8000_0000 <= v < 0x8000_0000 ==> r == v
  {
    (v + 0x8000_0000) % 0x1_0000_0000 - 0x8000_0000
  }

  predicate Restarts(p: Packet) {
    p.frame == LIST_FRAME_START || p.frame == LIST_FRAME_SINGLE
  }

  /** How every list of the panel takes a packet: start afresh if told to, append if there is an item and room. */
  function Grown<T>(have: seq<T>, cap: nat, p: Packet, x: T): seq<T> {
    var kept := if Restarts(p) then [] else have;
    if p.total > 0 && |kept| < cap then kept + [x] else kept
  }

  /** The item a packet carries. */
  function ItemIn(p: Packet): Item
    requires p.payload.Server?
  {
    Item(p.payload.server, Truncated(p.payload.name, NAME_LEN), p.payload.memberCount)
  }

  function ServerOf(i: Item): UiServer {
    UiServer(ToInt(i.id), i.name, i.count, NoMembers(), [])
  }

  function ChannelOf(i: Item): UiChannel {
    UiChannel(i.id, i.name)
  }

  function MemberOf(i: Item): UiMember {
    UiMember(i.id, i.name, IsAdminFlag(i.count), IsOnlineFlag(i.count))
  }

  /** The count of a server when the member-list arm reaches its test. */
  function CountAt(s: UiServer, p: Packet): int {
    if Restarts(p) then 0 else s.memberCount
  }

  /** The member-list arm, on the member places and the count of one server. */
  function ReceiveMember(s: UiServer, p: Packet): UiServer
    requires p.payload.Server? && |s.members| == UI_MAX_MEMBERS && CountAt(s, p) >= 0
  {
    var count := CountAt(s, p);
    if p.total > 0 && count < UI_MAX_MEMBERS then
      s.(members := s.members[count := MemberOf(ItemIn(p))], memberCount := count + 1)
    else s.(memberCount := count)
  }

  predicate IsListAction(action: int) {
    action in [SERVER_LIST, SERVER_LIST_JOINED, SERVER_LIST_CHANNELS, SERVER_LIST_MEMBERS]
  }

  /** A packet that continues a member list finds a negative count in the active server. */
  predicate ContinuesBelowZero(panel: Panel, p: Packet) {
    && p.payload.Server? && p.payload.action == SERVER_LIST_MEMBERS && p.total > 0 && !Restarts(p)
    && 0 <= panel.active < |panel.servers| && panel.servers[panel.active].memberCount < 0
  }

  /** The packets that `ui_update_server_state` takes for parts of a list. */
  predicate IsListPacket(p: Packet) {
    p.payload.Server? && IsListAction(p.payload.action)
  }

  /**
   `ui_update_server_state`, for the packets of a list.  The member places are guarded from above only, so
   an index leaves its array exactly on a packet that continues a list below zero.
   */
  function Update(panel: Panel, p: Packet): (r: Outcome)
    requires PanelOk(panel) && IsListPacket(p)
    ensures r.Overrun? <==> ContinuesBelowZero(panel, p)
    ensures r.Fine? ==> PanelOk(r.panel) && r.panel.active == panel.active
  {
    var action := p.payload.action;
    if action == SERVER_LIST || action == SERVER_LIST_JOINED then
      Fine(panel.(servers := Grown(panel.servers, UI_MAX_SERVERS, p, ServerOf(ItemIn(p)))))
    else if !(0 <= panel.active < |panel.servers|) then Fine(panel)
    else
      var s := panel.servers[panel.active];
      if action == SERVER_LIST_CHANNELS then
        var s' := s.(channels := Grown(s.channels, UI_MAX_CHANNELS, p, ChannelOf(ItemIn(p))));
        Fine(panel.(servers := panel.servers[panel.active := s']))
      else if CountAt(s, p) < 0 then
        if p.total > 0 then Overrun else Fine(panel)
      else Fine(panel.(servers := panel.servers[panel.active := ReceiveMember(s, p)]))
  }

  ghost predicate AreListPackets(ps: seq<Packet>) {
    forall p :: p in ps ==> IsListPacket(p)
  }

  /** Packets of lists of one kind. */
  ghost predicate AllOf(action: int, ps: seq<Packet>) {
    IsListAction(action) && forall p :: p in ps ==> p.payload.Server? && p.payload.action == action
  }

  function UpdateAll(panel: Panel, ps: seq<Packet>): (r: Outcome)
    requires PanelOk(panel) && AreListPackets(ps)
    ensures r.Fine? ==> PanelOk(r.panel) && r.panel.active == panel.active
  {
    if ps == [] then Fine(panel)
    else
      var before := UpdateAll(panel, ps[..|ps| - 1]);
      if before.Overrun? then Overrun else Update(before.panel, ps[|ps| - 1])
  }

  // ------------------------------------------------------------ when an index leaves its array

  /** The negative count of one server list, and the member list that runs into it. */
  lemma NegativeCountOverruns(panel: Panel, server: int, name: string, first: Item)
    requires PanelOk(panel) && panel.active == 0
    ensures var count := Packet(0, 0, 1, LIST_FRAME_SINGLE, Server(SERVER_LIST, server, 0, RESP_OK, -1, name));
            var member := Packet(0, 1, 2, LIST_FRAME_MIDDLE, Server(SERVER_LIST_MEMBERS, first.id, 0, RESP_OK, first.count, first.name));
            AreListPackets([count, member]) && UpdateAll(panel, [count, member]) == Overrun
  {
    var count := Packet(0, 0, 1, LIST_FRAME_SINGLE, Server(SERVER_LIST, server, 0, RESP_OK, -1, name));
    var member := Packet(0, 1, 2, LIST_FRAME_MIDDLE, Server(SERVER_LIST_MEMBERS, first.id, 0, RESP_OK, first.count, first.name));
    assert [count, member][..1] == [count] && [count][..0] == [];
    assert UpdateAll(panel, []) == Fine(panel);
    assert UpdateAll(panel, [count]) == Fine(Panel([ServerOf(ItemIn(count))], 0));
  }

  /** What moves the panel: a packet of a list, or the user's choice of a server. */
  datatype Move = Frame(packet: Packet) | Choose(active: int)

  ghost predicate CountsOk(panel: Panel) {
    forall s :: s in panel.servers ==> s.memberCount >= 0
  }

  predicate CountOk(p: Packet) {
    p.payload.Server? ==> p.payload.memberCount >= 0
  }

  function MoveAll(panel: Panel, moves: seq<Move>): (r: Outcome)
    requires PanelOk(panel) && forall m :: m in moves && m.Frame? ==> IsListPacket(m.packet)
    ensures r.Fine? ==> PanelOk(r.panel)
  {
    if moves == [] then Fine(panel)
    else
      var before, m := MoveAll(panel, moves[..|moves| - 1]), moves[|moves| - 1];
      if before.Overrun? then Overrun
      else if m.Choose? then Fine(before.panel.(active := m.active))
      else Update(before.panel, m.packet)
  }

  lemma UpdateKeepsCounts(panel: Panel, p: Packet)
    requires PanelOk(panel) && IsListPacket(p) && CountsOk(panel) && CountOk(p)
    ensures Update(panel, p).Fine? && CountsOk(Update(panel, p).panel)
  {}

  /** If no packet carries a negative count, no index leaves its array, whichever server the user chooses and when. */
  lemma {:induction false} CountsKeepIndicesInside(panel: Panel, moves: seq<Move>)
    requires PanelOk(panel) && CountsOk(panel)
    requires forall m :: m in moves && m.Frame? ==> IsListPacket(m.packet) && CountOk(m.packet)
    ensures MoveAll(panel, moves).Fine? && CountsOk(MoveAll(panel, moves).panel)
  {
    hide Update, IsListPacket, CountOk;
    if moves != [] {
      CountsKeepIndicesInside(panel, moves[..|moves| - 1]);
      var before, m := MoveAll(panel, moves[..|moves| - 1]), moves[|moves| - 1];
      if m.Frame? {
        UpdateKeepsCounts(before.panel, m.packet);
      }
    }
  }

  // ------------------------------------------------------------ the round trip

  /** A list of the panel after a whole stream, each packet standing for `make` of its item. */
  function GrownAll<T>(have: seq<T>, cap: nat, ps: seq<Packet>, make: Item -> T): seq<T>
    requires forall p :: p in ps ==> p.payload.Server?
  {
    if ps == [] then have
    else Grown(GrownAll(have, cap, ps[..|ps| - 1], make), cap, ps[|ps| - 1], make(ItemIn(ps[|ps| - 1])))
  }

  /** What a list of capacity `cap` should show of `rows`. */
  function Shown<T>(rows: seq<Item>, cap: nat, make: Item -> T): seq<T> {
    Map((i: Item) => make(i.Cut()), First(rows, cap))
  }

  lemma ShownAppend<T>(rows: seq<Item>, x: Item, cap: nat, make: Item -> T)
    ensures Shown(rows + [x], cap, make) == Shown(rows, cap, make) + if |rows| < cap then [make(x.Cut())] else []
  {}

  /** After `k` packets a list shows the first `k` items, as far as it has room, whatever it held before. */
  lemma {:induction false} GrowsToItems<T>(have: seq<T>, cap: nat, action: int, items: seq<Item>, make: Item -> T, k: nat)
    requires 0 < k <= |items| && 0 < cap
    ensures GrownAll(have, cap, ListStream(action, items)[..k], make) == Shown(items[..k], cap, make)
  {
    var ps := ListStream(action, items);
    assert ps[..k][..k - 1] == ps[..k - 1];
    assert ps[k - 1] == ItemPacket(action, items, k - 1);
    if k > 1 {
      GrowsToItems(have, cap, action, items, make, k - 1);
    }
    ShownAppend(items[..k - 1], items[k - 1], cap, make);
    assert items[..k] == items[..k - 1] + [items[k - 1]];
    assert ItemIn(ps[k - 1]) == items[k - 1].Cut();
  }

  /** So a whole stream shows the first rows that fit both the accumulator and the list. */
  lemma GrowsToRows<T>(have: seq<T>, cap: nat, action: int, rows: seq<Item>, limit: nat, make: Item -> T)
    requires 0 < cap <= limit
    ensures GrownAll(have, cap, ListStream(action, Collected(rows, limit)), make) == Shown(rows, cap, make)
  {
    var items := Collected(rows, limit);
    var ps := ListStream(action, items);
    if items == [] {
      assert ps[..0] == [];
    } else {
      GrowsToItems(have, cap, action, items, make, |items|);
      assert ps[..|items|] == ps && items[..|items|] == items;
    }
  }

  lemma {:induction false} ServersGrow(panel: Panel, action: int, ps: seq<Packet>)
    requires PanelOk(panel) && AllOf(action, ps) && (action == SERVER_LIST || action == SERVER_LIST_JOINED)
    ensures UpdateAll(panel, ps) == Fine(Panel(GrownAll(panel.servers, UI_MAX_SERVERS, ps, ServerOf), panel.active))
  {
    if ps != [] {
      ServersGrow(panel, action, ps[..|ps| - 1]);
    }
  }

  /** A server list of any length replaces whatever the client had by the first rows that fit, in order. */
  lemma ServerListRoundTrip(panel: Panel, action: int, rows: seq<Item>)
    requires PanelOk(panel) && (action == SERVER_LIST || action == SERVER_LIST_JOINED)
    ensures UpdateAll(panel, ListStream(action, Collected(rows, MAX_SERVERS)))
            == Fine(Panel(Shown(rows, UI_MAX_SERVERS, ServerOf), panel.active))
  {
    ServersGrow(panel, action, ListStream(action, Collected(rows, MAX_SERVERS)));
    GrowsToRows(panel.servers, UI_MAX_SERVERS, action, rows, MAX_SERVERS, ServerOf);
  }

  lemma {:induction false} ChannelsGrow(panel: Panel, ps: seq<Packet>)
    requires PanelOk(panel) && AllOf(SERVER_LIST_CHANNELS, ps) && 0 <= panel.active < |panel.servers|
    ensures var s := panel.servers[panel.active];
            UpdateAll(panel, ps)
            == Fine(panel.(servers := panel.servers[panel.active := s.(channels := GrownAll(s.channels, UI_MAX_CHANNELS, ps, ChannelOf))]))
  {
    if ps != [] {
      ChannelsGrow(panel, ps[..|ps| - 1]);
    }
  }

  /** A channel list replaces the channels of the active server and touches nothing else. */
  lemma ChannelListRoundTrip(panel: Panel, rows: seq<Item>)
    requires PanelOk(panel) && 0 <= panel.active < |panel.servers|
    ensures var s := panel.servers[panel.active].(channels := Shown(rows, UI_MAX_CHANNELS, ChannelOf));
            UpdateAll(panel, ListStream(SERVER_LIST_CHANNELS, Collected(rows, MAX_CHANNELS)))
            == Fine(panel.(servers := panel.servers[panel.active := s]))
  {
    ChannelsGrow(panel, ListStream(SERVER_LIST_CHANNELS, Collected(rows, MAX_CHANNELS)));
    GrowsToRows(panel.servers[panel.active].channels, UI_MAX_CHANNELS, SERVER_LIST_CHANNELS, rows, MAX_CHANNELS, ChannelOf);
  }

  /**
   A refusal of a list request takes no item, but it is a list of its own: it empties the list it was asked
   for, that of the servers, or that of the channels or members of the active server.
   */
  lemma RefusalEmpties(panel: Panel, action: int, status: int)
    requires PanelOk(panel) && IsListAction(action)
    ensures var r, shown := Update(panel, Plain(Server(action, 0, 0, status, 0, ""))), 0 <= panel.active < |panel.servers|;
            && r.Fine?
            && (action == SERVER_LIST || action == SERVER_LIST_JOINED ==> r.panel == Panel([], panel.active))
            && (action == SERVER_LIST_CHANNELS ==>
                  r.panel == if shown then panel.(servers := panel.servers[panel.active := panel.servers[panel.active].(channels := [])]) else panel)
            && (action == SERVER_LIST_MEMBERS ==>
                  r.panel == if shown then panel.(servers := panel.servers[panel.active := panel.servers[panel.active].(memberCount := 0)]) else panel)
  {}

  /** The members of the active server: the places up to the count are what an appended list would hold. */
  ghost predicate ShowsMembers(was: Panel, outcome: Outcome, members: seq<UiMember>)
    requires 0 <= was.active < |was.servers|
  {
    && outcome.Fine?
    && var now := outcome.panel;
    && now.active == was.active && |now.servers| == |was.servers|
    && var s := now.servers[was.active];
      && now.servers == was.servers[was.active := s]
      && s == was.servers[was.active].(memberCount := s.memberCount, members := s.members)
      && s.memberCount == |members| && |s.members| == UI_MAX_MEMBERS && |members| <= UI_MAX_MEMBERS
      && s.members[..s.memberCount] == members
  }

  lemma MemberStep(s: UiServer, p: Packet, shown: seq<UiMember>)
    requires p.payload.Server? && |s.members| == UI_MAX_MEMBERS && CountAt(s, p) >= 0
    requires Restarts(p) || (0 <= s.memberCount <= UI_MAX_MEMBERS && shown == s.members[..s.memberCount])
    ensures var s', shown' := ReceiveMember(s, p), Grown(shown, UI_MAX_MEMBERS, p, MemberOf(ItemIn(p)));
            s'.memberCount == |shown'| <= UI_MAX_MEMBERS && s'.members[..s'.memberCount] == shown'
  {}

  lemma {:induction false} MembersGrow(panel: Panel, ps: seq<Packet>)
    requires PanelOk(panel) && AllOf(SERVER_LIST_MEMBERS, ps) && 0 <= panel.active < |panel.servers|
    requires ps != [] && Restarts(ps[0])
    ensures ShowsMembers(panel, UpdateAll(panel, ps), GrownAll([], UI_MAX_MEMBERS, ps, MemberOf))
  {
    var front, last := ps[..|ps| - 1], ps[|ps| - 1];
    if front != [] {
      MembersGrow(panel, front);
    }
    assert UpdateAll(panel, []) == Fine(panel);
    var before := UpdateAll(panel, front).panel;
    assert before.servers[panel.active] in before.servers;
    MemberStep(before.servers[panel.active], last, GrownAll([], UI_MAX_MEMBERS, front, MemberOf));
  }

  /** A member list survives with ids, cut names, admin and online flags; only the active server changes. */
  lemma MemberListRoundTrip(panel: Panel, rows: seq<UiMember>)
    requires PanelOk(panel) && 0 <= panel.active < |panel.servers|
    ensures var items := Map((m: UiMember) => Item(m.id, m.name, MemberFlags(m.admin, m.online)), rows);
            var ps := ListStream(SERVER_LIST_MEMBERS, Collected(items, MAX_SERVER_MEMBERS));
            ShowsMembers(panel, UpdateAll(panel, ps),
                         Map((m: UiMember) => m.(name := Truncated(m.name, NAME_LEN)), First(rows, UI_MAX_MEMBERS)))
  {
    var items := Map((m: UiMember) => Item(m.id, m.name, MemberFlags(m.admin, m.online)), rows);
    var ps := ListStream(SERVER_LIST_MEMBERS, Collected(items, MAX_SERVER_MEMBERS));
    MembersGrow(panel, ps);
    GrowsToRows([], UI_MAX_MEMBERS, SERVER_LIST_MEMBERS, items, MAX_SERVER_MEMBERS, MemberOf);
    MembersShown(rows);
  }

  lemma FlagsSurvive(admin: bool, online: bool)
    ensures IsAdminFlag(MemberFlags(admin, online)) == admin && IsOnlineFlag(MemberFlags(admin, online)) == online
  {}

  lemma MembersShown(rows: seq<UiMember>)
    ensures Shown(Map((m: UiMember) => Item(m.id, m.name, MemberFlags(m.admin, m.online)), rows), UI_MAX_MEMBERS, MemberOf)
            == Map((m: UiMember) => m.(name := Truncated(m.name, NAME_LEN)), First(rows, UI_MAX_MEMBERS))
  {
    var items := Map((m: UiMember) => Item(m.id, m.name, MemberFlags(m.admin, m.online)), rows);
    var shown := Shown(items, UI_MAX_MEMBERS, MemberOf);
    var expected := Map((m: UiMember) => m.(name := Truncated(m.name, NAME_LEN)), First(rows, UI_MAX_MEMBERS));
    forall k | 0 <= k < |shown| ensures shown[k] == expected[k] {
      var m := rows[k];
      assert First(items, UI_MAX_MEMBERS)[k] == items[k] && First(rows, UI_MAX_MEMBERS)[k] == m;
      assert items[k] == Item(m.id, m.name, MemberFlags(m.admin, m.online));
      FlagsSurvive(m.admin, m.online);
      assert shown[k] == MemberOf(items[k].Cut());
    }
  }

  // ------------------------------------------------------------ the panel in place

  class UiPanel {
    var servers: array<UiServer>
    var serverCount: nat
    var active: int

    ghost predicate Valid()
      reads this, servers
    {
      servers.Length == UI_MAX_SERVERS && serverCount <= servers.Length && PanelOk(Contents())
    }

    ghost function Contents(): Panel
      reads this, servers
      requires serverCount <= servers.Length
    {
      Panel(servers[..serverCount], active)
    }

    constructor ()
      ensures Valid() && fresh(servers) && Contents() == Panel([], -1)
    {
      servers := new UiServer[UI_MAX_SERVERS](i => UiServer(0, "", 0, NoMembers(), []));
      serverCount, active := 0, -1;
    }

    /**
     `ui_update_server_state` for list packets.  An index leaves its array, which `overrun` reports, exactly
     on a member packet that continues a list while the active server has a negative count.
     */
    method UpdateServerState(p: Packet) returns (overrun: bool)
      requires Valid() && IsListPacket(p)
      modifies this, servers
      ensures Valid() && servers == old(servers)
      ensures overrun == ContinuesBelowZero(old(Contents()), p)
      ensures !overrun ==> Update(old(Contents()), p) == Fine(Contents())
    {
      overrun := false;
      var action := p.payload.action;
      if action == SERVER_LIST_JOINED || action == SERVER_LIST {
        if Restarts(p) {
          serverCount := 0;
        }
        if p.total > 0 && serverCount < UI_MAX_SERVERS {
          servers[serverCount] := ServerOf(ItemIn(p));
          serverCount := serverCount + 1;
        }
      } else if 0 <= active < serverCount {
        var s := servers[active];
        if action == SERVER_LIST_CHANNELS {
          if Restarts(p) {
            s := s.(channels := []);
          }
          if p.total > 0 && |s.channels| < UI_MAX_CHANNELS {
            s := s.(channels := s.channels + [ChannelOf(ItemIn(p))]);
          }
        } else {
          if Restarts(p) {
            s := s.(memberCount := 0);
          }
          if p.total > 0 && s.memberCount < UI_MAX_MEMBERS {
            if s.memberCount < 0 {
              return true;
            }
            s := s.(members := s.members[s.memberCount := MemberOf(ItemIn(p))], memberCount := s.memberCount + 1);
          }
        }
        ghost var before := servers[..serverCount];
        assert before[active] in before;
        servers[active] := s;
        assert servers[..serverCount] == before[active := s];
      }
    }
  }
}
