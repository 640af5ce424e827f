/**
 The server as a machine that takes one event at a time: a new connection, a lost connection,
 or one packet of a connected client (`server/server.c` and the handlers it calls).  Every
 handler is a function from the state before to the state after, with the packets it sends.
 */
module Server {
  import opened Names
  import opened Protocol
  import opened Friends
  import Store
  import opened Listing

  const MAX_CLIENTS: nat := 64
  const HISTORY_LIMIT: nat := 50

  /** The part of a `ClientNode` that the handlers read and write. */
  datatype Session = Session(id: int, fd: int, authenticated: bool, username: string, currentServer: CInt) {
    /** The test of the presence loops. */
    predicate Is(user: int) {
      fd > 0 && authenticated && id == user
    }

    /** `clear_client_session` */
    function Cleared(): Session {
      Session(0, fd, false, "", -1)
    }

    /** Linking an identity to a connection. */
    function LoggedIn(user: int, name: string): Session {
      this.(authenticated := true, id := user, username := Truncated(name, NAME_LEN))
    }
  }

  datatype DmRow = DmRow(id: int, sender: int, receiver: int, text: string) {
    predicate Between(a: int, b: int) {
      (sender == a && receiver == b) || (sender == b && receiver == a)
    }
  }

  /** The log of all sockets, in the order of the system calls. */
  datatype Out = Opened(fd: int) | Sent(fd: int, packet: Packet)

  datatype State = State(
    sessions: seq<Session>,
    users: seq<UserRow>,
    friends: seq<FriendRow>,
    tables: Store.Tables,
    dms: seq<DmRow>,
    sent: seq<Out>)
  {
    function Send(fd: int, p: Packet): State {
      this.(sent := sent + [Sent(fd, p)])
    }

    function SendAll(outs: seq<Out>): State {
      this.(sent := sent + outs)
    }

    function Ids(): seq<int> {
      UserIds(users)
    }
  }

  /** What happens to the server; `hashOk` is the verdict of the password hash for a login or registration. */
  datatype Event = Accept(fd: int) | Hangup(i: nat) | Request(i: nat, packet: Packet, hashOk: bool)

  // ------------------------------------------------------------ sending

  /** All packets of a stream go to one socket. */
  function Into(fd: int, ps: seq<Packet>): (outs: seq<Out>)
    ensures |outs| == |ps|
  {
    Map((p: Packet) => Sent(fd, p), ps)
  }

  /** `send_action_response` for a social request. */
  function SocialResponse(action: int, status: int): Packet {
    Plain(Social(0, action, status, 0, "", ""))
  }

  function ServerResponse(action: int, status: int): Packet {
    Plain(Server(action, 0, 0, status, 0, ""))
  }

  function AuthReply(action: int, status: int, name: string): Packet {
    Plain(Auth(action, status, Truncated(name, NAME_LEN), ""))
  }

  // ------------------------------------------------------------ the user list

  /** `client_is_online` */
  predicate Online(sessions: seq<Session>, user: int) {
    exists i :: 0 <= i < |sessions| && sessions[i].Is(user)
  }

  /** SELECT ... FROM users ORDER BY username ASC */
  function ByName(users: seq<UserRow>): seq<UserRow> {
    SortBy((u: UserRow) => u.name, users)
  }

  /** The packet of `user_list_cb` for one row. */
  function UserPacket(sessions: seq<Session>, u: UserRow, index: int): Packet {
    var online := Online(sessions, u.id);
    Packet(0, index, -1, LIST_FRAME_MIDDLE,
           Social(if online then STATUS_ONLINE else STATUS_OFFLINE, SOCIAL_LIST_USERS, if online then 1 else 0, u.id,
                  Truncated(u.name, NAME_LEN), Truncated(u.status, STATUS_LEN)))
  }

  function ListStart(action: int): Packet {
    Framed(LIST_FRAME_START, Social(0, action, 0, 0, "", ""))
  }

  function ListEnd(action: int, total: int): Packet {
    Packet(0, 0, total, LIST_FRAME_END, Social(0, action, 0, 0, "", ""))
  }

  function UserItems(sessions: seq<Session>, rows: seq<UserRow>): (ps: seq<Packet>)
    ensures |ps| == |rows|
  {
    seq(|rows|, k requires 0 <= k < |rows| => UserPacket(sessions, rows[k], k))
  }

  function UserListStream(sessions: seq<Session>, users: seq<UserRow>): seq<Packet> {
    [ListStart(SOCIAL_LIST_USERS)] + UserItems(sessions, ByName(users)) + [ListEnd(SOCIAL_LIST_USERS, |users|)]
  }

  /** `notify_all_user_lists`, up to client `n`. */
  function NotifyUsers(sessions: seq<Session>, users: seq<UserRow>, n: nat): seq<Out>
    requires n <= |sessions|
  {
    if n == 0 then []
    else
      var c := sessions[n - 1];
      NotifyUsers(sessions, users, n - 1)
      + if c.fd > 0 && c.authenticated then Into(c.fd, UserListStream(sessions, users)) else []
  }

  /** `send_status_update_packet` */
  function StatusPacket(status: int, user: int, name: string, profile: string, online: bool): Packet {
    Plain(Social(if online then STATUS_ONLINE else STATUS_OFFLINE, SOCIAL_UPDATE_STATUS, status, user,
                 Truncated(name, NAME_LEN), Truncated(profile, STATUS_LEN)))
  }

  /** One packet to every authenticated client, up to client `n`. */
  function ToSessions(sessions: seq<Session>, p: Packet, n: nat): seq<Out>
    requires n <= |sessions|
  {
    if n == 0 then []
    else ToSessions(sessions, p, n - 1) + if sessions[n - 1].fd > 0 && sessions[n - 1].authenticated then [Sent(sessions[n - 1].fd, p)] else []
  }

  // ------------------------------------------------------------ the friend list

  function FriendPacket(e: FriendEntry, index: int): Packet {
    Packet(0, index, -1, LIST_FRAME_MIDDLE, Social(0, SOCIAL_LIST_FRIENDS, e.kind, e.id, Truncated(e.name, NAME_LEN), ""))
  }

  function FriendItems(es: seq<FriendEntry>): (ps: seq<Packet>)
    ensures |ps| == |es|
  {
    seq(|es|, k requires 0 <= k < |es| => FriendPacket(es[k], k))
  }

  function FriendListStream(es: seq<FriendEntry>): seq<Packet> {
    [ListStart(SOCIAL_LIST_FRIENDS)] + FriendItems(es) + [ListEnd(SOCIAL_LIST_FRIENDS, |es|)]
  }

  /** The first connection that carries the id, or -1: the search of the delivery loops. */
  function FirstWithId(sessions: seq<Session>, id: int, from: nat): (k: int)
    requires from <= |sessions|
    ensures k == -1 || (from <= k < |sessions| && sessions[k].fd > 0 && sessions[k].id == id)
    ensures forall i :: from <= i < (if k >= 0 then k else |sessions|) ==> !(sessions[i].fd > 0 && sessions[i].id == id)
    decreases |sessions| - from
  {
    if from == |sessions| then -1
    else if sessions[from].fd > 0 && sessions[from].id == id then from
    else FirstWithId(sessions, id, from + 1)
  }

  /** `notify_friend_list_update` */
  function NotifyFriends(s: State, user: int): seq<Out> {
    var k := FirstWithId(s.sessions, user, 0);
    if k < 0 then [] else Into(s.sessions[k].fd, FriendListStream(FriendListing(s.friends, s.users, user)))
  }

  // ------------------------------------------------------------ server lists

  function MemberCount(t: Store.Tables, server: int): int {
    |Filter((m: Store.MemberRow) => m.server == server, t.members)|
  }

  function ServerItem(t: Store.Tables, x: Store.ServerRow): Item {
    Item(x.id, x.name, MemberCount(t, x.id))
  }

  /** `db_list_servers` */
  function AllServers(t: Store.Tables): seq<Item> {
    SortBy((i: Item) => i.name, Map((x: Store.ServerRow) => ServerItem(t, x), t.servers))
  }

  /** `db_list_joined_servers` */
  function JoinedServers(t: Store.Tables, user: int): seq<Item> {
    SortBy((i: Item) => i.name,
           Map((x: Store.ServerRow) => ServerItem(t, x), Filter((x: Store.ServerRow) => Store.IsMember(t, x.id, user), t.servers)))
  }

  /** `db_list_server_channels` */
  function ServerChannels(t: Store.Tables, server: int): seq<Item> {
    SortBy((i: Item) => i.name, Map((c: Store.ChannelRow) => Item(c.id, c.name, 0), Store.ChannelsOf(t, server)))
  }

  /** `db_list_server_members`, with the flags of `collect_member_list_item` */
  function ServerMembers(t: Store.Tables, users: seq<UserRow>, sessions: seq<Session>, server: int): seq<Item> {
    SortBy((i: Item) => i.name,
           Map((m: Store.MemberRow) => Item(m.user, NameOf(users, m.user), MemberFlags(m.admin, Online(sessions, m.user))),
               Filter((m: Store.MemberRow) => m.server == server, t.members)))
  }

  function MemberStream(s: State, server: int): seq<Packet> {
    ListStream(SERVER_LIST_MEMBERS, Collected(ServerMembers(s.tables, s.users, s.sessions, server), MAX_SERVER_MEMBERS))
  }

  /** `notify_server_member_list`, up to client `n`. */
  function NotifyMembers(s: State, server: int, n: nat): seq<Out>
    requires n <= |s.sessions|
  {
    if n == 0 then []
    else
      var c := s.sessions[n - 1];
      NotifyMembers(s, server, n - 1)
      + if c.fd > 0 && c.authenticated && c.currentServer == server then Into(c.fd, MemberStream(s, server)) else []
  }

  /** `notify_server_member_lists_for_user`, for the first `n` servers of the user. */
  function NotifyJoined(s: State, servers: seq<Item>, n: nat): seq<Out>
    requires n <= |servers|
  {
    if n == 0 then [] else NotifyJoined(s, servers, n - 1) + NotifyMembers(s, servers[n - 1].id, |s.sessions|)
  }

  /** What follows every change of the sessions of `user`: member lists, then everyone's user list. */
  function Announce(s: State, user: int): State {
    var joined := JoinedServers(s.tables, user);
    s.SendAll(NotifyJoined(s, joined, |joined|)).SendAll(NotifyUsers(s.sessions, s.users, |s.sessions|))
  }

  // ------------------------------------------------------------ connections

  function Connect(s: State, fd: int): State {
    if |s.sessions| >= MAX_CLIENTS then s
    else s.(sessions := s.sessions + [Session(0, fd, false, "", -1)], sent := s.sent + [Opened(fd)])
  }

  /** The client record goes, the later ones move down, and the change is announced. */
  function Disconnect(s: State, i: nat): State
    requires i < |s.sessions|
  {
    var c := s.sessions[i];
    var s' := s.(sessions := s.sessions[..i] + s.sessions[i + 1..]);
    if c.authenticated && c.id > 0 then Announce(s', c.id) else s'
  }

  // ------------------------------------------------------------ accounts

  /** `db_get_user_id_by_name`; ids are positive, so 0 stands for no user. */
  function IdOf(users: seq<UserRow>, name: string): (id: int)
    ensures id == 0 || exists u :: u in users && u.id == id && u.name == name
  {
    if users == [] then 0
    else if users[|users| - 1].name == name then users[|users| - 1].id
    else IdOf(users[..|users| - 1], name)
  }

  predicate NameTaken(users: seq<UserRow>, name: string) {
    exists u :: u in users && u.name == name
  }

  /** `register_account` */
  function Register(s: State, i: nat, name: string, hashOk: bool): State
    requires i < |s.sessions|
  {
    var fd := s.sessions[i].fd;
    if !hashOk then s.Send(fd, AuthReply(AUTH_REGISTER, 1, ""))
    else if NameTaken(s.users, name) then s.Send(fd, AuthReply(AUTH_REGISTER, RESP_ERR_CONFLICT, ""))
    else
      var id := NextId(s.Ids());
      var s1 := s.(users := s.users + [UserRow(id, name, "")],
                   sessions := s.sessions[i := s.sessions[i].LoggedIn(id, name)]);
      s1.SendAll(NotifyUsers(s1.sessions, s1.users, |s1.sessions|)).Send(fd, AuthReply(AUTH_REGISTER, RESP_OK, ""))
  }

  /** Does `revoke_existing_login` end this session? */
  predicate IsRevoked(c: Session, fd: int, user: int) {
    c.fd > 0 && c.fd != fd && c.authenticated && c.id == user
  }

  /** `revoke_existing_login` */
  function Revoked(sessions: seq<Session>, fd: int, user: int): seq<Session> {
    Map((c: Session) => if IsRevoked(c, fd, user) then c.Cleared() else c, sessions)
  }

  function RevokeOuts(sessions: seq<Session>, fd: int, user: int, name: string, n: nat): seq<Out>
    requires n <= |sessions|
  {
    if n == 0 then []
    else
      var c := sessions[n - 1];
      RevokeOuts(sessions, fd, user, name, n - 1)
      + if IsRevoked(c, fd, user) then [Sent(c.fd, AuthReply(AUTH_LOGOUT, RESP_OK, name))] else []
  }

  /** `login_account` */
  function Login(s: State, i: nat, name: string, hashOk: bool): State
    requires i < |s.sessions|
  {
    var fd := s.sessions[i].fd;
    if !NameTaken(s.users, name) then s.Send(fd, AuthReply(AUTH_LOGIN, 1, ""))
    else if !hashOk then s.Send(fd, AuthReply(AUTH_LOGIN, RESP_ERR_INVALID, ""))
    else
      var user := IdOf(s.users, name);
      var s1 := s.SendAll(RevokeOuts(s.sessions, fd, user, name, |s.sessions|)).(sessions := Revoked(s.sessions, fd, user));
      var s2 := s1.(sessions := s1.sessions[i := s1.sessions[i].LoggedIn(user, name)]);
      Announce(s2, user).Send(fd, AuthReply(AUTH_LOGIN, RESP_OK, ""))
  }

  /** `logout_account` */
  function Logout(s: State, i: nat): State
    requires i < |s.sessions|
  {
    var c := s.sessions[i];
    if !c.authenticated then s.Send(c.fd, AuthReply(AUTH_LOGOUT, RESP_ERR_UNAUTHORIZED, ""))
    else
      var s1 := s.(sessions := s.sessions[i := c.Cleared()]);
      Announce(s1, c.id).Send(c.fd, AuthReply(AUTH_LOGOUT, RESP_DONE, c.username))
  }

  /** `handle_auth_packet` */
  function HandleAuth(s: State, i: nat, p: Packet, hashOk: bool): State
    requires i < |s.sessions| && p.payload.Auth?
  {
    var action, name := p.payload.action, p.payload.username;
    if action == AUTH_REGISTER then Register(s, i, name, hashOk)
    else if action == AUTH_LOGIN then Login(s, i, name, hashOk)
    else if action == AUTH_LOGOUT then Logout(s, i)
    else s
  }

  // ------------------------------------------------------------ social requests

  predicate IsFriendAction(action: int) {
    action in [SOCIAL_FRIEND_REQUEST, SOCIAL_FRIEND_ACCEPT, SOCIAL_FRIEND_REJECT, SOCIAL_FRIEND_REMOVE]
  }

  function VerbOf(action: int): Verb
    requires IsFriendAction(action)
  {
    if action == SOCIAL_FRIEND_REQUEST then Asks
    else if action == SOCIAL_FRIEND_ACCEPT then Accepts
    else if action == SOCIAL_FRIEND_REJECT then Rejects
    else Removes
  }

  /** The status code that answers a refused friend request; `rc` is the code of the table operation. */
  function FriendError(action: int, rc: int): int {
    if rc == -2 then RESP_ERR_CONFLICT
    else if action == SOCIAL_FRIEND_REQUEST then RESP_ERR_DB
    else RESP_ERR_NOT_FOUND
  }

  /** The four friend arms of `handle_social_packet`: the table operation, the answer, and who is told. */
  function HandleFriend(s: State, i: nat, action: int, name: string): State
    requires i < |s.sessions| && IsFriendAction(action)
  {
    var c := s.sessions[i];
    if !NameTaken(s.users, name) then s.Send(c.fd, SocialResponse(action, RESP_ERR_NOT_FOUND))
    else
      var other := IdOf(s.users, name);
      if action == SOCIAL_FRIEND_REQUEST && other == c.id then s.Send(c.fd, SocialResponse(action, RESP_ERR_INVALID))
      else
        var (rc, friends) := Perform(FriendOp(VerbOf(action), c.id, other, s.Ids()), s.friends);
        var s1 := s.(friends := friends);
        if rc < 0 then s1.Send(c.fd, SocialResponse(action, FriendError(action, rc)))
        else
          var s2 := s1.Send(c.fd, SocialResponse(action, RESP_OK));
          var s3 := if rc == 1 then s2.SendAll(NotifyFriends(s2, c.id)) else s2;
          s3.SendAll(NotifyFriends(s3, other))
  }

  /** UPDATE users SET status = ? WHERE id = ? */
  function WithProfile(users: seq<UserRow>, id: int, profile: string): seq<UserRow> {
    Map((u: UserRow) => if u.id == id then u.(status := profile) else u, users)
  }

  function UpdateStatus(s: State, i: nat, profile: string): State
    requires i < |s.sessions|
  {
    var c := s.sessions[i];
    if |profile| == 0 || |profile| > STATUS_LEN then s.Send(c.fd, StatusPacket(RESP_ERR_INVALID, c.id, c.username, "", true))
    else if c.id !in s.Ids() then s.Send(c.fd, StatusPacket(RESP_ERR_DB, c.id, c.username, "", true))
    else
      s.(users := WithProfile(s.users, c.id, profile))
       .SendAll(ToSessions(s.sessions, StatusPacket(RESP_OK, c.id, c.username, profile, Online(s.sessions, c.id)), |s.sessions|))
  }

  /** `handle_social_packet` */
  function HandleSocial(s: State, i: nat, p: Packet): State
    requires i < |s.sessions| && p.payload.Social?
  {
    var c, action := s.sessions[i], p.payload.action;
    if !c.authenticated then s.Send(c.fd, SocialResponse(action, RESP_ERR_UNAUTHORIZED))
    else if IsFriendAction(action) then HandleFriend(s, i, action, p.payload.name)
    else if action == SOCIAL_LIST_FRIENDS then s.SendAll(Into(c.fd, FriendListStream(FriendListing(s.friends, s.users, c.id))))
    else if action == SOCIAL_LIST_USERS then s.SendAll(Into(c.fd, UserListStream(s.sessions, s.users)))
    else if action == SOCIAL_UPDATE_STATUS then UpdateStatus(s, i, p.payload.profile)
    else s.Send(c.fd, SocialResponse(action, RESP_ERR_INVALID))
  }

  // ------------------------------------------------------------ direct messages

  function DmIds(dms: seq<DmRow>): seq<int> {
    Map((m: DmRow) => m.id, dms)
  }

  /** INSERT INTO direct_messages; nothing happens when a user is unknown. */
  function SaveDm(s: State, sender: int, receiver: int, text: string): State {
    if sender !in s.Ids() || receiver !in s.Ids() then s
    else s.(dms := s.dms + [DmRow(NextId(DmIds(s.dms)), sender, receiver, text)])
  }

  /** The last elements, at most `n` of them. */
  function Last<T>(s: seq<T>, n: nat): seq<T> {
    if |s| <= n then s else s[|s| - n..]
  }

  /** `db_list_direct_messages`: the last 50 of the pair in ascending id order. */
  function History(dms: seq<DmRow>, a: int, b: int): seq<DmRow> {
    Last(Filter((m: DmRow) => m.Between(a, b), dms), HISTORY_LIMIT)
  }

  /** The packet of `direct_message_history_cb`, which finds the author by comparing names. */
  function DmPacket(users: seq<UserRow>, c: Session, friend: int, m: DmRow, index: int): (p: Packet)
    ensures p.payload.Dm?
  {
    Packet(if NameOf(users, m.sender) == c.username then c.id else friend, index, 0, LIST_FRAME_MIDDLE,
           Dm(DM_MESSAGE, 0, friend, m.id, Truncated(m.text, MESSAGE_LEN)))
  }

  function DmItems(users: seq<UserRow>, c: Session, friend: int, rows: seq<DmRow>): (ps: seq<Packet>)
    ensures |ps| == |rows|
  {
    seq(|rows|, k requires 0 <= k < |rows| => DmPacket(users, c, friend, rows[k], k))
  }

  function DmFrame(frame: int, friend: int): Packet {
    Framed(frame, Dm(DM_MESSAGE, 0, friend, 0, ""))
  }

  function DmStream(users: seq<UserRow>, c: Session, friend: int, rows: seq<DmRow>): seq<Packet> {
    [DmFrame(LIST_FRAME_START, friend)] + DmItems(users, c, friend, rows) + [DmFrame(LIST_FRAME_END, friend)]
  }

  /** `handle_private_message` */
  function HandleDm(s: State, i: nat, p: Packet): State
    requires i < |s.sessions| && p.payload.Dm?
  {
    var c, receiver := s.sessions[i], p.payload.recipient;
    if p.payload.action == DM_MESSAGE then
      var s1 := SaveDm(s, c.id, receiver, p.payload.text);
      var k := FirstWithId(s1.sessions, receiver, 0);
      if k < 0 then s1 else s1.Send(s1.sessions[k].fd, p.(sender := c.id))
    else if p.payload.action == DM_HISTORY_REQUEST then
      s.SendAll(Into(c.fd, DmStream(s.users, c, receiver, History(s.dms, c.id, receiver))))
    else s
  }

  // ------------------------------------------------------------ channels

  /** `channel_broadcast` to every connection, up to client `n`. */
  function Broadcast(sessions: seq<Session>, p: Packet, n: nat): seq<Out>
    requires n <= |sessions|
  {
    if n == 0 then []
    else Broadcast(sessions, p, n - 1) + if sessions[n - 1].fd > 0 then [Sent(sessions[n - 1].fd, p)] else []
  }

  /** The packet that goes out for a channel message: stamped with the id and the name of the session. */
  function Stamped(p: Packet, c: Session): Packet
    requires p.payload.Channel?
  {
    var q := p.payload;
    p.(sender := c.id,
       payload := Channel(q.action, q.server, q.status, q.channel, Truncated(c.username, NAME_LEN), q.messageId, q.text))
  }

  /** The row of a request to the relational tables. */
  function OpOf(s: State, c: Session, request: Store.Request): Store.Op {
    Store.Op(c.id, c.authenticated, request, s.Ids())
  }

  function CodeOf(code: Store.Code): int {
    match code
    case Done => RESP_OK
    case Invalid => RESP_ERR_INVALID
    case Unauthorized => RESP_ERR_UNAUTHORIZED
    case NotFound => RESP_ERR_NOT_FOUND
    case DbError => RESP_ERR_DB
  }

  function ChannelFrame(frame: int): Packet {
    Framed(frame, Channel(CHANNEL_MESSAGE, 0, 0, 0, "", 0, ""))
  }

  function ChannelItems(users: seq<UserRow>, channel: int, rows: seq<Store.MessageRow>): (ps: seq<Packet>)
    ensures |ps| == |rows|
  {
    seq(|rows|, k requires 0 <= k < |rows| =>
      Packet(0, k, 0, LIST_FRAME_MIDDLE,
             Channel(CHANNEL_MESSAGE, 0, 0, channel, Truncated(NameOf(users, rows[k].user), NAME_LEN), rows[k].id,
                     Truncated(rows[k].text, MESSAGE_LEN))))
  }

  function ChannelStream(s: State, channel: int): seq<Packet> {
    [ChannelFrame(LIST_FRAME_START)]
    + ChannelItems(s.users, channel, Store.HistoryOf(s.tables, channel))
    + [ChannelFrame(LIST_FRAME_END)]
  }

  /** Something said in a channel. */
  predicate IsMessage(p: Packet) {
    p.payload.Channel? && p.payload.action == CHANNEL_MESSAGE
  }

  /** `handle_channel_message` */
  function HandleChannel(s: State, i: nat, p: Packet): State
    requires i < |s.sessions| && p.payload.Channel?
  {
    var c, q := s.sessions[i], p.payload;
    if q.action == CHANNEL_MESSAGE then
      var s1 := s.SendAll(Broadcast(s.sessions, Stamped(p, c), |s.sessions|));
      s1.(tables := Store.Perform(OpOf(s, c, Store.Post(q.channel, q.text)), s.tables).1)
    else if q.action == CHANNEL_CREATE then
      var (code, tables) := Store.Perform(OpOf(s, c, Store.AddChannel(q.server, q.name)), s.tables);
      var made := code.Done?;
      var id := if made then NextId(Store.ChannelIds(s.tables.channels)) else 0;
      var name := if made then Truncated(q.name, NAME_LEN) else "";
      s.(tables := tables).Send(c.fd, Plain(Channel(CHANNEL_CREATE, q.server, CodeOf(code), id, name, 0, "")))
    else if q.action == CHANNEL_DELETE then
      var (code, tables) := Store.Perform(OpOf(s, c, Store.DropChannel(q.channel)), s.tables);
      s.(tables := tables).Send(c.fd, Plain(Channel(CHANNEL_DELETE, 0, CodeOf(code), q.channel, "", 0, "")))
    else if q.action == CHANNEL_HISTORY_REQUEST then
      s.SendAll(Into(c.fd, ChannelStream(s, q.channel)))
    else s
  }

  // ------------------------------------------------------------ servers

  predicate IsTableAction(action: int) {
    action in [SERVER_JOIN, SERVER_LEAVE, SERVER_CREATE, SERVER_DELETE, SERVER_KICK_MEMBER]
  }

  function RequestOf(q: Payload): Store.Request
    requires q.Server? && IsTableAction(q.action)
  {
    if q.action == SERVER_JOIN then Store.Join(q.server)
    else if q.action == SERVER_LEAVE then Store.Leave(q.server)
    else if q.action == SERVER_CREATE then Store.Create(q.name)
    else if q.action == SERVER_DELETE then Store.Delete(q.server)
    else Store.Kick(q.server, q.target)
  }

  /** Join, leave, create, delete and kick: the tables, the answer, and the member lists of a join or leave. */
  function HandleTable(s: State, i: nat, q: Payload): State
    requires i < |s.sessions| && q.Server? && IsTableAction(q.action)
  {
    var c := s.sessions[i];
    var (code, tables) := Store.Perform(OpOf(s, c, RequestOf(q)), s.tables);
    var leaves := q.action == SERVER_LEAVE && code.Done? && c.currentServer == q.server;
    var c' := if leaves then c.(currentServer := -1) else c;
    var s1 := s.(tables := tables, sessions := s.sessions[i := c']).Send(c.fd, ServerResponse(q.action, CodeOf(code)));
    if (q.action == SERVER_JOIN || q.action == SERVER_LEAVE) && code.Done?
    then s1.SendAll(NotifyMembers(s1, q.server, |s1.sessions|))
    else s1
  }

  /** `handle_server_packet` */
  function HandleServer(s: State, i: nat, p: Packet): State
    requires i < |s.sessions| && p.payload.Server?
  {
    var c, q := s.sessions[i], p.payload;
    if IsTableAction(q.action) then HandleTable(s, i, q)
    else if q.action == SERVER_LIST || q.action == SERVER_LIST_JOINED then
      if !c.authenticated then s.Send(c.fd, ServerResponse(q.action, RESP_ERR_UNAUTHORIZED))
      else
        var rows := if q.action == SERVER_LIST then AllServers(s.tables) else JoinedServers(s.tables, c.id);
        s.SendAll(Into(c.fd, ListStream(q.action, Collected(rows, MAX_SERVERS))))
    else if q.action == SERVER_LIST_CHANNELS || q.action == SERVER_LIST_MEMBERS then
      if q.server <= 0 then s.Send(c.fd, ServerResponse(q.action, RESP_ERR_INVALID))
      else if !c.authenticated then s.Send(c.fd, ServerResponse(q.action, RESP_ERR_UNAUTHORIZED))
      else if q.action == SERVER_LIST_CHANNELS then
        s.SendAll(Into(c.fd, ListStream(q.action, Collected(ServerChannels(s.tables, q.server), MAX_CHANNELS))))
      else
        s.(sessions := s.sessions[i := c.(currentServer := ToInt(q.server))]).SendAll(Into(c.fd, MemberStream(s, q.server)))
    else s.Send(c.fd, ServerResponse(q.action, RESP_ERR_INVALID))
  }

  // ------------------------------------------------------------ events

  /** `process_client_packet` */
  function Dispatch(s: State, i: nat, p: Packet, hashOk: bool): State
    requires i < |s.sessions|
  {
    match p.payload
    case Auth(_, _, _, _) => HandleAuth(s, i, p, hashOk)
    case Dm(_, _, _, _, _) => HandleDm(s, i, p)
    case Server(_, _, _, _, _, _) => HandleServer(s, i, p)
    case Channel(_, _, _, _, _, _, _) => HandleChannel(s, i, p)
    case Social(_, _, _, _, _, _) => HandleSocial(s, i, p)
  }

  /** Sockets are those of the table, and the kernel never hands out one that is in use. */
  predicate Enabled(s: State, e: Event) {
    match e
    case Accept(fd) => fd > 0 && forall i :: 0 <= i < |s.sessions| ==> s.sessions[i].fd != fd
    case Hangup(i) => i < |s.sessions|
    case Request(i, _, _) => i < |s.sessions|
  }

  function Step(s: State, e: Event): State
    requires Enabled(s, e)
  {
    match e
    case Accept(fd) => Connect(s, fd)
    case Hangup(i) => Disconnect(s, i)
    case Request(i, p, hashOk) => Dispatch(s, i, p, hashOk)
  }

  /** Every event is possible when its turn comes. */
  predicate Runs(s: State, es: seq<Event>)
    decreases |es|
  {
    es == [] || (Enabled(s, es[0]) && Runs(Step(s, es[0]), es[1..]))
  }

  function Run(s: State, es: seq<Event>): State
    requires Runs(s, es)
    decreases |es|
  {
    if es == [] then s else Run(Step(s, es[0]), es[1..])
  }
}
