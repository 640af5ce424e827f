/**
 What the streams of the server carry: one frame for each row, with the fields of the row, between the
 frames that open and close the stream.  Stated over the rows of the tables.
 */
module Frames {
  import opened Names
  import opened Protocol
  import opened Friends
  import Store
  import opened Listing
  import opened Server
  import opened Invariants

  /** The frames between the ones that open and close a stream. */
  ghost predicate IsStream(ps: seq<Packet>, start: Packet, frames: seq<Packet>, end: Packet) {
    ps == [start] + frames + [end]
  }

  // ------------------------------------------------------------ the messages of a channel

  /** Frame number `index` of a channel's history: the id of the message, its text, and who wrote it. */
  ghost predicate CarriesMessage(p: Packet, m: Store.MessageRow, users: seq<UserRow>, channel: int, index: int) {
    && p.payload.Channel?
    && p == Packet(0, index, 0, LIST_FRAME_MIDDLE,
                   Channel(CHANNEL_MESSAGE, 0, 0, channel, p.payload.name, m.id, Truncated(m.text, MESSAGE_LEN)))
    && forall u :: u in users && u.id == m.user ==> p.payload.name == Truncated(u.name, NAME_LEN)
  }

  /** The messages of the channel and no others, in the order of the table. */
  ghost predicate CarriesChannel(ps: seq<Packet>, messages: seq<Store.MessageRow>, users: seq<UserRow>, channel: int) {
    exists places: seq<nat>, frames: seq<Packet> ::
      && IsStream(ps, Packet(0, 0, 0, LIST_FRAME_START, Channel(CHANNEL_MESSAGE, 0, 0, 0, "", 0, "")), frames,
                  Packet(0, 0, 0, LIST_FRAME_END, Channel(CHANNEL_MESSAGE, 0, 0, 0, "", 0, "")))
      && ArePlaces(places, messages, (m: Store.MessageRow) => m.channel == channel)
      && |frames| == |places|
      && forall k :: 0 <= k < |places| ==> CarriesMessage(frames[k], messages[places[k]], users, channel, k)
  }

  lemma ChannelIsCarried(s: State, channel: int)
    requires Good(s)
    ensures CarriesChannel(ChannelStream(s, channel), s.tables.messages, s.users, channel)
  {
    var rows := Store.HistoryOf(s.tables, channel);
    var frames := ChannelItems(s.users, channel, rows);
    var places := FilterPlaces((m: Store.MessageRow) => m.channel == channel, s.tables.messages);
    hide Filter, ArePlaces;
    forall k | 0 <= k < |rows| ensures CarriesMessage(frames[k], rows[k], s.users, channel, k) {
      forall u | u in s.users && u.id == rows[k].user ensures NameOf(s.users, rows[k].user) == u.name {
        NameOfUser(s.users, u);
      }
    }
    hide CarriesMessage, Good, ChannelItems;
    assert IsStream(ChannelStream(s, channel), ChannelFrame(LIST_FRAME_START), frames, ChannelFrame(LIST_FRAME_END));
  }

  // ------------------------------------------------------------ the users

  /** A connection is logged in as the user. */
  predicate IsLive(sessions: seq<Session>, user: int) {
    exists k :: 0 <= k < |sessions| && sessions[k].fd > 0 && sessions[k].authenticated && sessions[k].id == user
  }

  predicate CarriesUser(p: Packet, u: UserRow, live: bool, index: int) {
    p == Packet(0, index, -1, LIST_FRAME_MIDDLE,
                Social(if live then STATUS_ONLINE else STATUS_OFFLINE, SOCIAL_LIST_USERS, if live then 1 else 0, u.id,
                       Truncated(u.name, NAME_LEN), Truncated(u.status, STATUS_LEN)))
  }

  /** All users by name, each once, with who is connected. */
  ghost predicate CarriesUsers(ps: seq<Packet>, sessions: seq<Session>, users: seq<UserRow>) {
    exists rows: seq<UserRow>, frames: seq<Packet> ::
      && IsStream(ps, Packet(0, 0, 0, LIST_FRAME_START, Social(0, SOCIAL_LIST_USERS, 0, 0, "", "")), frames,
                  Packet(0, 0, |users|, LIST_FRAME_END, Social(0, SOCIAL_LIST_USERS, 0, 0, "", "")))
      && multiset(rows) == multiset(users) && SortedBy((u: UserRow) => u.name, rows)
      && |frames| == |rows| == |users|
      && forall k :: 0 <= k < |rows| ==> CarriesUser(frames[k], rows[k], IsLive(sessions, rows[k].id), k)
  }

  lemma UsersAreCarried(sessions: seq<Session>, users: seq<UserRow>)
    ensures CarriesUsers(UserListStream(sessions, users), sessions, users)
  {
    var rows := ByName(users);
    var frames := UserItems(sessions, rows);
    SortByPermutes((u: UserRow) => u.name, users);
    SortBySorts((u: UserRow) => u.name, users);
    hide SortBy, SortedBy;
    forall k | 0 <= k < |rows| ensures CarriesUser(frames[k], rows[k], IsLive(sessions, rows[k].id), k) {
      LiveIsOnline(sessions, rows[k].id);
    }
    hide CarriesUser, IsLive, UserItems;
    assert IsStream(UserListStream(sessions, users), ListStart(SOCIAL_LIST_USERS), frames, ListEnd(SOCIAL_LIST_USERS, |users|));
  }

  lemma LiveIsOnline(sessions: seq<Session>, user: int)
    ensures IsLive(sessions, user) <==> Online(sessions, user)
  {
    if Online(sessions, user) {
      var k :| 0 <= k < |sessions| && sessions[k].Is(user);
      assert sessions[k].id == user;
    }
    if IsLive(sessions, user) {
      var k :| 0 <= k < |sessions| && sessions[k].fd > 0 && sessions[k].authenticated && sessions[k].id == user;
      assert sessions[k].Is(user);
    }
  }

  // ------------------------------------------------------------ the friends

  /** Frame number `index` of a friend list: the other user and how the two stand, 2 for friends, 1 and 0 for requests. */
  ghost predicate CarriesEntry(p: Packet, other: int, kind: int, users: seq<UserRow>, index: int) {
    && p.payload.Social?
    && p == Packet(0, index, -1, LIST_FRAME_MIDDLE, Social(0, SOCIAL_LIST_FRIENDS, kind, other, p.payload.name, ""))
    && forall u :: u in users && u.id == other ==> p.payload.name == Truncated(u.name, NAME_LEN)
  }

  /** The entries of the rows to a user, at these places of the table. */
  ghost predicate CarriesIncoming(frames: seq<Packet>, places: seq<nat>, t: seq<FriendRow>, users: seq<UserRow>, me: int) {
    && ArePlaces(places, t, (r: FriendRow) => r.friend == me) && |frames| == |places|
    && forall k :: 0 <= k < |places| ==> var r := t[places[k]]; CarriesEntry(frames[k], r.user, if r.accepted then 2 else 1, users, k)
  }

  /** The entries of the rows from a user, after `n` others. */
  ghost predicate CarriesOutgoing(frames: seq<Packet>, places: seq<nat>, t: seq<FriendRow>, users: seq<UserRow>, me: int, n: nat) {
    && ArePlaces(places, t, (r: FriendRow) => r.user == me) && |frames| == |places|
    && forall k :: 0 <= k < |places| ==> var r := t[places[k]]; CarriesEntry(frames[k], r.friend, if r.accepted then 2 else 0, users, n + k)
  }

  /** One entry for each row to the user, and then for each row from the user, in the order of the table. */
  ghost predicate CarriesFriends(ps: seq<Packet>, t: seq<FriendRow>, users: seq<UserRow>, me: int) {
    exists to: seq<nat>, from: seq<nat>, incoming: seq<Packet>, outgoing: seq<Packet> ::
      && CarriesIncoming(incoming, to, t, users, me) && CarriesOutgoing(outgoing, from, t, users, me, |to|)
      && IsStream(ps, Packet(0, 0, 0, LIST_FRAME_START, Social(0, SOCIAL_LIST_FRIENDS, 0, 0, "", "")), incoming + outgoing,
                  Packet(0, 0, |to| + |from|, LIST_FRAME_END, Social(0, SOCIAL_LIST_FRIENDS, 0, 0, "", "")))
  }

  lemma NamesAre(users: seq<UserRow>, id: int)
    requires UsersOk(users)
    ensures forall u :: u in users && u.id == id ==> NameOf(users, id) == u.name
  {
    forall u | u in users && u.id == id ensures NameOf(users, id) == u.name {
      NameOfUser(users, u);
    }
  }

  function EntryTo(users: seq<UserRow>, r: FriendRow): FriendEntry {
    FriendEntry(r.user, NameOf(users, r.user), if r.accepted then 2 else 1)
  }

  function EntryFrom(users: seq<UserRow>, r: FriendRow): FriendEntry {
    FriendEntry(r.friend, NameOf(users, r.friend), if r.accepted then 2 else 0)
  }

  function EntriesTo(t: seq<FriendRow>, users: seq<UserRow>, me: int): seq<FriendEntry> {
    Map((r: FriendRow) => EntryTo(users, r), Filter((r: FriendRow) => r.friend == me, t))
  }

  function EntriesFrom(t: seq<FriendRow>, users: seq<UserRow>, me: int): seq<FriendEntry> {
    Map((r: FriendRow) => EntryFrom(users, r), Filter((r: FriendRow) => r.user == me, t))
  }

  /** What the two arms of the query select, without the join: both ends of every row are users. */
  lemma ListingArms(t: seq<FriendRow>, users: seq<UserRow>, me: int)
    requires References(t, users)
    ensures FriendListing(t, users, me) == EntriesTo(t, users, me) + EntriesFrom(t, users, me)
  {
    FilterSame((r: FriendRow) => r.friend == me && r.user in UserIds(users), (r: FriendRow) => r.friend == me, t);
    FilterSame((r: FriendRow) => r.user == me && r.friend in UserIds(users), (r: FriendRow) => r.user == me, t);
    hide Filter, NameOf, UserIds;
    var to := Filter((r: FriendRow) => r.friend == me, t);
    assert EntriesTo(t, users, me) == Map((r: FriendRow) => FriendEntry(r.user, NameOf(users, r.user), if r.accepted then 2 else 1), to);
    var from := Filter((r: FriendRow) => r.user == me, t);
    assert EntriesFrom(t, users, me) == Map((r: FriendRow) => FriendEntry(r.friend, NameOf(users, r.friend), if r.accepted then 2 else 0), from);
  }

  lemma EntryIsCarried(users: seq<UserRow>, r: FriendRow, index: int)
    requires UsersOk(users)
    ensures CarriesEntry(FriendPacket(EntryTo(users, r), index), r.user, if r.accepted then 2 else 1, users, index)
    ensures CarriesEntry(FriendPacket(EntryFrom(users, r), index), r.friend, if r.accepted then 2 else 0, users, index)
  {
    NamesAre(users, r.user);
    NamesAre(users, r.friend);
    hide NameOf, UsersOk;
  }

  /** The frames of entries, numbered from `n` on. */
  function FramesFrom(es: seq<FriendEntry>, n: nat): seq<Packet> {
    seq(|es|, k requires 0 <= k < |es| => FriendPacket(es[k], n + k))
  }

  lemma IncomingIsCarried(t: seq<FriendRow>, users: seq<UserRow>, me: int) returns (places: seq<nat>)
    requires UsersOk(users)
    ensures CarriesIncoming(FramesFrom(EntriesTo(t, users, me), 0), places, t, users, me) && |places| == |EntriesTo(t, users, me)|
  {
    places := FilterPlaces((r: FriendRow) => r.friend == me, t);
    var es := EntriesTo(t, users, me);
    assert forall k :: 0 <= k < |places| ==> places[k] < |t| && es[k] == EntryTo(users, t[places[k]]);
    hide Filter, ArePlaces, UsersOk, FriendPacket, CarriesEntry, EntryTo, EntriesTo;
    forall k | 0 <= k < |places| ensures var r := t[places[k]]; CarriesEntry(FramesFrom(es, 0)[k], r.user, if r.accepted then 2 else 1, users, k) {
      EntryIsCarried(users, t[places[k]], k);
    }
  }

  lemma OutgoingIsCarried(t: seq<FriendRow>, users: seq<UserRow>, me: int, n: nat) returns (places: seq<nat>)
    requires UsersOk(users)
    ensures CarriesOutgoing(FramesFrom(EntriesFrom(t, users, me), n), places, t, users, me, n) && |places| == |EntriesFrom(t, users, me)|
  {
    places := FilterPlaces((r: FriendRow) => r.user == me, t);
    var es := EntriesFrom(t, users, me);
    assert forall k :: 0 <= k < |places| ==> places[k] < |t| && es[k] == EntryFrom(users, t[places[k]]);
    hide Filter, ArePlaces, UsersOk, FriendPacket, CarriesEntry, EntryFrom, EntriesFrom;
    forall k | 0 <= k < |places| ensures var r := t[places[k]]; CarriesEntry(FramesFrom(es, n)[k], r.friend, if r.accepted then 2 else 0, users, n + k) {
      EntryIsCarried(users, t[places[k]], n + k);
    }
  }

  lemma StreamOfFriends(a: seq<FriendEntry>, b: seq<FriendEntry>)
    ensures IsStream(FriendListStream(a + b), ListStart(SOCIAL_LIST_FRIENDS), FramesFrom(a, 0) + FramesFrom(b, |a|), ListEnd(SOCIAL_LIST_FRIENDS, |a| + |b|))
  {
    hide FriendPacket;
    assert FriendItems(a + b) == FramesFrom(a, 0) + FramesFrom(b, |a|);
  }

  lemma AllEntriesCarried(ps: seq<Packet>, t: seq<FriendRow>, users: seq<UserRow>, me: int, to: seq<nat>, from: seq<nat>,
                          incoming: seq<Packet>, outgoing: seq<Packet>)
    requires CarriesIncoming(incoming, to, t, users, me) && CarriesOutgoing(outgoing, from, t, users, me, |to|)
    requires IsStream(ps, ListStart(SOCIAL_LIST_FRIENDS), incoming + outgoing, ListEnd(SOCIAL_LIST_FRIENDS, |to| + |from|))
    ensures CarriesFriends(ps, t, users, me)
  {
    hide CarriesIncoming, CarriesOutgoing, IsStream;
  }

  lemma FriendsAreCarried(s: State, me: int)
    requires Good(s)
    ensures CarriesFriends(FriendListStream(FriendListing(s.friends, s.users, me)), s.friends, s.users, me)
  {
    var t := s.friends;
    ListingArms(t, s.users, me);
    GoodUsers(s);
    hide FriendListing, FriendListStream, UsersOk, Good, CarriesIncoming, CarriesOutgoing, EntriesTo, EntriesFrom, FramesFrom, IsStream;
    var a, b := EntriesTo(t, s.users, me), EntriesFrom(t, s.users, me);
    var to := IncomingIsCarried(t, s.users, me);
    var from := OutgoingIsCarried(t, s.users, me, |to|);
    StreamOfFriends(a, b);
    hide CarriesFriends;
    AllEntriesCarried(FriendListStream(a + b), t, s.users, me, to, from, FramesFrom(a, 0), FramesFrom(b, |to|));
  }

  lemma GoodUsers(s: State)
    requires Good(s)
    ensures UsersOk(s.users)
  {}

  // ------------------------------------------------------------ direct messages

  /** Frame number `index` of a history: the message, under the id of the requester if its author has the requester's name. */
  ghost predicate CarriesDm(p: Packet, m: DmRow, users: seq<UserRow>, c: Session, friend: int, index: int) {
    && p == Packet(p.sender, index, 0, LIST_FRAME_MIDDLE, Dm(DM_MESSAGE, 0, friend, m.id, Truncated(m.text, MESSAGE_LEN)))
    && forall u :: u in users && u.id == m.sender ==> p.sender == if u.name == c.username then c.id else friend
  }

  ghost predicate CarriesLast(frames: seq<Packet>, last: seq<nat>, dms: seq<DmRow>, users: seq<UserRow>, c: Session, friend: int) {
    |frames| == |last| && forall k :: 0 <= k < |last| ==> last[k] < |dms| && CarriesDm(frames[k], dms[last[k]], users, c, friend, k)
  }

  /** The last 50 messages of the two, or all, in the order of the table. */
  ghost predicate CarriesDms(ps: seq<Packet>, dms: seq<DmRow>, users: seq<UserRow>, c: Session, friend: int) {
    exists places: seq<nat>, frames: seq<Packet> ::
      && ArePlaces(places, dms, (m: DmRow) => (m.sender == c.id && m.receiver == friend) || (m.sender == friend && m.receiver == c.id))
      && CarriesLast(frames, if |places| <= HISTORY_LIMIT then places else places[|places| - HISTORY_LIMIT..], dms, users, c, friend)
      && IsStream(ps, Packet(0, 0, 0, LIST_FRAME_START, Dm(DM_MESSAGE, 0, friend, 0, "")), frames,
                  Packet(0, 0, 0, LIST_FRAME_END, Dm(DM_MESSAGE, 0, friend, 0, "")))
  }

  lemma RowsAreCarried(s: State, c: Session, friend: int, rows: seq<DmRow>, last: seq<nat>)
    requires UsersOk(s.users) && |rows| == |last| && forall k :: 0 <= k < |last| ==> last[k] < |s.dms| && rows[k] == s.dms[last[k]]
    ensures CarriesLast(DmItems(s.users, c, friend, rows), last, s.dms, s.users, c, friend)
  {
    hide UsersOk;
    forall k | 0 <= k < |last| ensures CarriesDm(DmItems(s.users, c, friend, rows)[k], s.dms[last[k]], s.users, c, friend, k) {
      NamesAre(s.users, rows[k].sender);
    }
  }

  lemma LastPlaces(s: State, a: int, b: int) returns (places: seq<nat>)
    ensures ArePlaces(places, s.dms, (m: DmRow) => (m.sender == a && m.receiver == b) || (m.sender == b && m.receiver == a))
    ensures var last := if |places| <= HISTORY_LIMIT then places else places[|places| - HISTORY_LIMIT..];
            |History(s.dms, a, b)| == |last| && forall k :: 0 <= k < |last| ==> last[k] < |s.dms| && History(s.dms, a, b)[k] == s.dms[last[k]]
  {
    var keep := (m: DmRow) => (m.sender == a && m.receiver == b) || (m.sender == b && m.receiver == a);
    FilterSame((m: DmRow) => m.Between(a, b), keep, s.dms);
    places := FilterPlaces(keep, s.dms);
    hide Filter;
  }

  lemma DmsAreCarried(s: State, c: Session, friend: int)
    requires Good(s)
    ensures CarriesDms(DmStream(s.users, c, friend, History(s.dms, c.id, friend)), s.dms, s.users, c, friend)
  {
    var rows := History(s.dms, c.id, friend);
    var places := LastPlaces(s, c.id, friend);
    GoodUsers(s);
    hide Good, ArePlaces, UsersOk, History, CarriesLast;
    RowsAreCarried(s, c, friend, rows, if |places| <= HISTORY_LIMIT then places else places[|places| - HISTORY_LIMIT..]);
    hide DmItems;
    assert IsStream(DmStream(s.users, c, friend, rows), DmFrame(LIST_FRAME_START, friend), DmItems(s.users, c, friend, rows), DmFrame(LIST_FRAME_END, friend));
  }

  // ------------------------------------------------------------ the lists about servers

  /** The frames of a list: one packet for each of the first rows, numbered, the first and the last marked; one empty packet if there are none. */
  ghost predicate CarriesItems(ps: seq<Packet>, action: int, rows: seq<Item>, limit: nat) {
    if rows == [] then ps == [Packet(0, -1, 0, LIST_FRAME_SINGLE, Server(action, 0, 0, RESP_DONE, 0, ""))]
    else
      && |ps| == (if |rows| <= limit then |rows| else limit)
      && forall k :: 0 <= k < |ps| ==>
           ps[k] == Packet(0, k, |ps|,
                           if |ps| == 1 then LIST_FRAME_SINGLE else if k == 0 then LIST_FRAME_START else if k == |ps| - 1 then LIST_FRAME_END else LIST_FRAME_MIDDLE,
                           Server(action, rows[k].id, 0, RESP_OK, rows[k].count, Truncated(rows[k].name, NAME_LEN)))
  }

  lemma ItemsAreCarried(action: int, rows: seq<Item>, limit: nat)
    requires limit > 0
    ensures CarriesItems(ListStream(action, Collected(rows, limit)), action, rows, limit)
  {
    var items := Collected(rows, limit);
    var ps := ListStream(action, items);
    if rows != [] {
      forall k | 0 <= k < |items| ensures ps[k] == ItemPacket(action, items, k) && items[k] == rows[k].Cut() {
        assert First(rows, limit)[k] == rows[k];
      }
      forall k | 0 <= k < |items| ensures Truncated(items[k].name, NAME_LEN) == Truncated(rows[k].name, NAME_LEN) {}
    }
  }
}
