/**
 The replicated user list.  Each client folds the packets sent to it since it connected; the
 result is compared with the users table and the live sessions of the server.
 */
module Presence {
  import opened Names
  import opened Protocol
  import opened Friends
  import Store
  import opened Listing
  import opened ClientView
  import opened Server
  import opened Invariants
  import opened Traffic

  // ------------------------------------------------------------ the truth

  function UiUserOf(sessions: seq<Session>, u: UserRow): UiUser {
    UiUser(u.id, Truncated(u.name, NAME_LEN), Truncated(u.status, STATUS_LEN), if Online(sessions, u.id) then 1 else 0)
  }

  /** The list every client should show: the first 128 users by name, with status texts and presence. */
  function Truth(sessions: seq<Session>, users: seq<UserRow>): seq<UiUser> {
    First(Map((u: UserRow) => UiUserOf(sessions, u), ByName(users)), MAX_ALL_USERS)
  }

  /** A shown list has exactly the true entries, online users first, then by name. */
  ghost predicate Coherent(shown: seq<UiUser>, truth: seq<UiUser>) {
    multiset(shown) == multiset(truth) && Sorted(shown)
  }

  /** Every authenticated client shows the truth. */
  ghost predicate PresenceOk(s: State) {
    forall c :: c in s.sessions && c.authenticated ==>
      Coherent(ViewOf(s.sent, c.fd).users, Truth(s.sessions, s.users))
  }

  // ------------------------------------------------------------ a whole list

  lemma ItemAddsUser(v: View, sessions: seq<Session>, u: UserRow, index: int)
    requires ViewOk(v)
    ensures Apply(v, UserPacket(sessions, u, index)).users
            == v.users + if |v.users| < MAX_ALL_USERS then [UiUserOf(sessions, u)] else []
  {}

  lemma {:induction false} ItemsFillList(v: View, sessions: seq<Session>, rows: seq<UserRow>, k: nat)
    requires ViewOk(v) && v.users == [] && k <= |rows|
    ensures ApplyAll(v, UserItems(sessions, rows)[..k]).users
            == First(Map((u: UserRow) => UiUserOf(sessions, u), rows[..k]), MAX_ALL_USERS)
  {
    hide UserPacket, Apply, UiUserOf;
    var ps := UserItems(sessions, rows);
    if k > 0 {
      ItemsFillList(v, sessions, rows, k - 1);
      assert ps[..k][..k - 1] == ps[..k - 1];
      assert rows[..k] == rows[..k - 1] + [rows[k - 1]];
      assert ps[k - 1] == UserPacket(sessions, rows[k - 1], k - 1);
      ItemAddsUser(ApplyAll(v, ps[..k - 1]), sessions, rows[k - 1], k - 1);
    }
  }

  lemma StartClears(v: View)
    requires ViewOk(v)
    ensures ApplyAll(v, [ListStart(SOCIAL_LIST_USERS)]).users == []
  {}

  lemma EndSorts(v: View, total: int)
    requires ViewOk(v)
    ensures ApplyAll(v, [ListEnd(SOCIAL_LIST_USERS, total)]).users == ExchangeFrom(v.users, 0)
  {
    hide ApplyAll, ExchangeFrom, Truncated, ReceiveFriend, ReceiveDm, WithStatus;
    var p := ListEnd(SOCIAL_LIST_USERS, total);
    ApplyOne(v, p);
    assert Apply(v, p) == ReceiveUser(v, p);
  }

  /** A user-list stream replaces whatever was shown by the sorted truth. */
  lemma StreamShowsTruth(v: View, sessions: seq<Session>, users: seq<UserRow>)
    requires ViewOk(v)
    ensures ApplyAll(v, UserListStream(sessions, users)).users == ExchangeFrom(Truth(sessions, users), 0)
  {
    var rows := ByName(users);
    var start, items, end := [ListStart(SOCIAL_LIST_USERS)], UserItems(sessions, rows), [ListEnd(SOCIAL_LIST_USERS, |users|)];
    ApplyAppend(v, start + items, end);
    ApplyAppend(v, start, items);
    StartClears(v);
    ItemsFillList(ApplyAll(v, start), sessions, rows, |rows|);
    assert items[..|rows|] == items && rows[..|rows|] == rows;
    EndSorts(ApplyAll(v, start + items), |users|);
    hide ApplyAll, ListStart, ListEnd, ByName, UserItems, ExchangeFrom;
  }

  lemma StreamIsCoherent(v: View, sessions: seq<Session>, users: seq<UserRow>)
    requires ViewOk(v)
    ensures Coherent(ApplyAll(v, UserListStream(sessions, users)).users, Truth(sessions, users))
  {
    StreamShowsTruth(v, sessions, users);
    ExchangeSorts(Truth(sessions, users), 0);
  }

  /** Pushing the list to everybody leaves every authenticated client with the truth, whatever happened before. */
  lemma {:induction false} NotifyReaches(sent: seq<Out>, sessions: seq<Session>, users: seq<UserRow>, n: nat, k: nat)
    requires SessionsOk(sessions, users) && k < n <= |sessions| && sessions[k].authenticated
    ensures Coherent(ViewOf(sent + NotifyUsers(sessions, users, n), sessions[k].fd).users, Truth(sessions, users))
  {
    hide UserListStream, Truth, Coherent, ViewOf, Into;
    var c, stream := sessions[n - 1], UserListStream(sessions, users);
    var before := sent + NotifyUsers(sessions, users, n - 1);
    var outs := if c.fd > 0 && c.authenticated then Into(c.fd, stream) else [];
    assert sent + NotifyUsers(sessions, users, n) == before + outs;
    assert sessions[k] in sessions;
    if k == n - 1 {
      ViewTakes(before, stream, c.fd);
      StreamIsCoherent(ViewOf(before, c.fd), sessions, users);
    } else {
      NotifyReaches(sent, sessions, users, n - 1, k);
      assert SessionsDiffer(sessions[k], sessions[n - 1]);
      IntoFd(c.fd, stream);
      ViewSkips(before, outs, sessions[k].fd);
    }
  }

  lemma NotifyRestoresPresence(s: State)
    requires SessionsOk(s.sessions, s.users)
    ensures PresenceOk(s.SendAll(NotifyUsers(s.sessions, s.users, |s.sessions|)))
  {
    forall c | c in s.sessions && c.authenticated
      ensures Coherent(ViewOf(s.sent + NotifyUsers(s.sessions, s.users, |s.sessions|), c.fd).users, Truth(s.sessions, s.users))
    {
      var k :| 0 <= k < |s.sessions| && s.sessions[k] == c;
      NotifyReaches(s.sent, s.sessions, s.users, |s.sessions|, k);
    }
  }

  // ------------------------------------------------------------ packets that do not matter

  /** The packets that can change a shown user list. */
  predicate TouchesUsers(p: Packet) {
    match p.payload
    case Auth(action, _, _, _) => action == AUTH_LOGOUT
    case Social(_, action, status, _, _, _) =>
      || (action == SOCIAL_LIST_USERS && p.frame != LIST_FRAME_SINGLE)
      || (action == SOCIAL_UPDATE_STATUS && status == RESP_OK)
    case _ => false
  }

  predicate QuietOut(o: Out) {
    o.Sent? && !TouchesUsers(o.packet)
  }

  /** The log goes on without touching any user list. */
  ghost predicate QuietLog(a: seq<Out>, b: seq<Out>) {
    a <= b && forall k :: |a| <= k < |b| ==> QuietOut(b[k])
  }

  lemma UntouchedUsers(v: View, p: Packet)
    requires v.friendCount <= |v.slots| && !TouchesUsers(p)
    ensures Apply(v, p).users == v.users
  {}

  lemma {:induction false} QuietKeepsUsers(a: seq<Out>, b: seq<Out>, fd: int)
    requires QuietLog(a, b)
    ensures ViewOf(b, fd).users == ViewOf(a, fd).users
    decreases |b|
  {
    if |a| < |b| {
      var front, last := b[..|b| - 1], b[|b| - 1];
      QuietKeepsUsers(a, front, fd);
      assert QuietOut(last);
      ViewOfAppend(front, last, fd);
      UntouchedUsers(ViewOf(front, fd), last.packet);
      assert b == front + [last];
    } else {
      assert a == b;
    }
  }

  lemma OnlineSame(a: seq<Session>, b: seq<Session>, user: int)
    requires SameUsers(a, b)
    ensures Online(a, user) == Online(b, user)
  {}

  /** The truth depends on the users and on who is online only. */
  lemma TruthSame(a: seq<Session>, b: seq<Session>, users: seq<UserRow>)
    requires forall user :: Online(a, user) == Online(b, user)
    ensures Truth(a, users) == Truth(b, users)
  {}

  /** Events that keep users, sessions and quiet logs keep every view coherent. */
  lemma QuietKeepsPresence(s: State, s': State)
    requires PresenceOk(s) && SameUsers(s.sessions, s'.sessions) && s'.users == s.users && QuietLog(s.sent, s'.sent)
    ensures PresenceOk(s')
  {
    forall user ensures Online(s.sessions, user) == Online(s'.sessions, user) {
      OnlineSame(s.sessions, s'.sessions, user);
    }
    TruthSame(s.sessions, s'.sessions, s.users);
    forall c | c in s'.sessions && c.authenticated
      ensures Coherent(ViewOf(s'.sent, c.fd).users, Truth(s'.sessions, s'.users))
    {
      var k :| 0 <= k < |s'.sessions| && s'.sessions[k] == c;
      assert s.sessions[k] in s.sessions;
      QuietKeepsUsers(s.sent, s'.sent, c.fd);
    }
  }

  lemma QuietTrans(a: seq<Out>, b: seq<Out>, c: seq<Out>)
    requires QuietLog(a, b) && QuietLog(b, c)
    ensures QuietLog(a, c)
  {}

  lemma NotifyFriendsQuiet(s: State, user: int)
    ensures QuietLog(s.sent, s.sent + NotifyFriends(s, user))
  {}

  // ------------------------------------------------------------ quiet handlers

  /** The handler changes no user, no identity of a session, and nothing that a user list shows. */
  ghost predicate Quiet(s: State, s': State) {
    s'.users == s.users && SameUsers(s.sessions, s'.sessions) && QuietLog(s.sent, s'.sent)
  }

  lemma AsideIsQuiet(s: State, s': State, kind: Kind)
    requires Aside(s, s', kind) && (kind.Dms? || kind.Servers? || kind.Channels?)
    ensures Quiet(s, s')
  {}

  lemma FriendQuiet(s: State, i: nat, action: int, name: string)
    requires i < |s.sessions| && IsFriendAction(action)
    ensures Quiet(s, HandleFriend(s, i, action, name))
  {
    hide Perform, NotifyFriends, QuietLog;
    var c, other := s.sessions[i], IdOf(s.users, name);
    var (rc, friends) := Perform(FriendOp(VerbOf(action), c.id, other, s.Ids()), s.friends);
    var s1 := s.(friends := friends);
    SocialErrorQuiet(s, s, c.fd, action, RESP_ERR_NOT_FOUND);
    SocialErrorQuiet(s, s, c.fd, action, RESP_ERR_INVALID);
    SocialErrorQuiet(s, s1, c.fd, action, FriendError(action, rc));
    SocialErrorQuiet(s, s1, c.fd, action, RESP_OK);
    var s2 := s1.Send(c.fd, SocialResponse(action, RESP_OK));
    var s3 := if rc == 1 then s2.SendAll(NotifyFriends(s2, c.id)) else s2;
    NotifyFriendsQuiet(s2, c.id);
    NotifyFriendsQuiet(s3, other);
    if rc == 1 {
      QuietTrans(s.sent, s2.sent, s3.sent);
    }
    QuietTrans(s.sent, s3.sent, s3.sent + NotifyFriends(s3, other));
  }

  lemma SocialErrorQuiet(s: State, s1: State, fd: int, action: int, status: int)
    requires s1.sent == s.sent && IsFriendAction(action)
    ensures QuietLog(s.sent, s1.Send(fd, SocialResponse(action, status)).sent)
  {}

  // ------------------------------------------------------------ the events that announce

  /** Sends that reach only a connection without a user do not matter. */
  lemma ReplyKeepsPresence(s: State, fd: int, p: Packet)
    requires PresenceOk(s)
    requires !TouchesUsers(p) || forall c :: c in s.sessions && c.authenticated ==> c.fd != fd
    ensures PresenceOk(s.Send(fd, p))
  {
    hide ViewOf, Truth, Coherent, Apply;
    forall c | c in s.sessions && c.authenticated
      ensures ViewOf(s.sent + [Sent(fd, p)], c.fd).users == ViewOf(s.sent, c.fd).users
    {
      ViewOfAppend(s.sent, Sent(fd, p), c.fd);
      if c.fd == fd {
        UntouchedUsers(ViewOf(s.sent, fd), p);
      }
    }
  }

  lemma AnnounceRestores(s: State, user: int)
    requires SessionsOk(s.sessions, s.users)
    ensures PresenceOk(Announce(s, user))
  {
    var joined := JoinedServers(s.tables, user);
    NotifyRestoresPresence(s.SendAll(NotifyJoined(s, joined, |joined|)));
  }

  lemma RegisterKeepsPresence(s: State, i: nat, name: string, hashOk: bool)
    requires Good(s) && PresenceOk(s) && i < |s.sessions|
    ensures PresenceOk(Register(s, i, name, hashOk))
  {
    RegisterKeepsGood(s, i, name, hashOk);
    var s' := Register(s, i, name, hashOk);
    if hashOk && !NameTaken(s.users, name) {
      var s1 := s'.(sent := s.sent);
      NotifyRestoresPresence(s1);
      ReplyKeepsPresence(s1.SendAll(NotifyUsers(s1.sessions, s1.users, |s1.sessions|)), s.sessions[i].fd, AuthReply(AUTH_REGISTER, RESP_OK, ""));
    } else {
      ReplyKeepsPresence(s, s.sessions[i].fd, s'.sent[|s.sent|].packet);
    }
  }

  lemma LoginKeepsPresence(s: State, i: nat, name: string, hashOk: bool)
    requires Good(s) && PresenceOk(s) && i < |s.sessions|
    ensures PresenceOk(Login(s, i, name, hashOk))
  {
    LoginKeepsGood(s, i, name, hashOk);
    var s', fd := Login(s, i, name, hashOk), s.sessions[i].fd;
    if hashOk && NameTaken(s.users, name) {
      var user := IdOf(s.users, name);
      var s1 := s.SendAll(RevokeOuts(s.sessions, fd, user, name, |s.sessions|)).(sessions := Revoked(s.sessions, fd, user));
      var s2 := s1.(sessions := s1.sessions[i := s1.sessions[i].LoggedIn(user, name)]);
      AnnounceRestores(s2, user);
      ReplyKeepsPresence(Announce(s2, user), fd, AuthReply(AUTH_LOGIN, RESP_OK, ""));
    } else {
      ReplyKeepsPresence(s, fd, s'.sent[|s.sent|].packet);
    }
  }

  /** Once the record is cleared, whoever is authenticated is on another socket. */
  lemma ClearedIsElsewhere(s: State, i: nat, x: Session)
    requires Good(s) && i < |s.sessions| && x.authenticated && x in s.sessions[i := s.sessions[i].Cleared()]
    ensures x.fd != s.sessions[i].fd
  {
    var r := s.sessions[i := s.sessions[i].Cleared()];
    var k :| 0 <= k < |r| && r[k] == x;
    var differ := SessionsDiffer(s.sessions[k], s.sessions[i]) || SessionsDiffer(s.sessions[i], s.sessions[k]);
  }

  /** A refusal goes to a connection that shows nothing. */
  lemma RefusedLogoutKeepsPresence(s: State, i: nat)
    requires Good(s) && PresenceOk(s) && i < |s.sessions| && !s.sessions[i].authenticated
    ensures PresenceOk(Logout(s, i))
  {
    var c := s.sessions[i];
    forall x | x in s.sessions && x.authenticated ensures x.fd != c.fd {
      var k :| 0 <= k < |s.sessions| && s.sessions[k] == x;
      var differ := SessionsDiffer(s.sessions[k], s.sessions[i]) || SessionsDiffer(s.sessions[i], s.sessions[k]);
    }
    hide Good, PresenceOk;
    ReplyKeepsPresence(s, c.fd, AuthReply(AUTH_LOGOUT, RESP_ERR_UNAUTHORIZED, ""));
  }

  lemma LogoutKeepsPresence(s: State, i: nat)
    requires Good(s) && PresenceOk(s) && i < |s.sessions|
    ensures PresenceOk(Logout(s, i))
  {
    hide PresenceOk, Announce, AuthReply, Good;
    var c := s.sessions[i];
    if c.authenticated {
      var s0 := s.(sessions := s.sessions[i := c.Cleared()]);
      var s1 := Announce(s0, c.id);
      ClearedSessionsOk(s, i);
      AnnounceRestores(s0, c.id);
      AnnounceKeepsSessions(s0, c.id);
      forall x | x in s1.sessions && x.authenticated ensures x.fd != c.fd {
        ClearedIsElsewhere(s, i, x);
      }
      ReplyKeepsPresence(s1, c.fd, AuthReply(AUTH_LOGOUT, RESP_DONE, c.username));
    } else {
      RefusedLogoutKeepsPresence(s, i);
    }
  }

  lemma ClearedSessionsOk(s: State, i: nat)
    requires Good(s) && i < |s.sessions|
    ensures SessionsOk(s.sessions[i := s.sessions[i].Cleared()], s.users)
  {
    assert s.sessions[i] in s.sessions;
    SessionReplaced(s.sessions, s.users, i, s.sessions[i].Cleared());
  }

  lemma AnnounceKeepsSessions(s: State, user: int)
    ensures Announce(s, user).sessions == s.sessions && Announce(s, user).users == s.users
  {
    hide NotifyJoined, NotifyUsers, JoinedServers;
  }

  lemma DisconnectKeepsPresence(s: State, i: nat)
    requires Good(s) && PresenceOk(s) && i < |s.sessions|
    ensures PresenceOk(Disconnect(s, i))
  {
    DisconnectKeepsGood(s, i);
    var c := s.sessions[i];
    var s1 := s.(sessions := s.sessions[..i] + s.sessions[i + 1..]);
    assert c in s.sessions;
    if c.authenticated {
      UserIdIn(s.users);
      AnnounceRestores(s1, c.id);
    } else {
      forall user ensures Online(s.sessions, user) == Online(s1.sessions, user) {
        if k :| 0 <= k < |s.sessions| && s.sessions[k].Is(user) {
          assert s1.sessions[if k < i then k else k - 1].Is(user);
        }
        if k :| 0 <= k < |s1.sessions| && s1.sessions[k].Is(user) {
          assert s.sessions[if k < i then k else k + 1].Is(user);
        }
      }
      TruthSame(s.sessions, s1.sessions, s.users);
    }
  }

  lemma ConnectKeepsPresence(s: State, fd: int)
    requires PresenceOk(s) && Enabled(s, Accept(fd))
    ensures PresenceOk(Connect(s, fd))
  {
    var s' := Connect(s, fd);
    if |s.sessions| < MAX_CLIENTS {
      forall user ensures Online(s.sessions, user) == Online(s'.sessions, user) {
        if k :| 0 <= k < |s.sessions| && s.sessions[k].Is(user) {
          assert s'.sessions[k].Is(user);
        }
        if k :| 0 <= k < |s'.sessions| && s'.sessions[k].Is(user) {
          assert s.sessions[k].Is(user);
        }
      }
      TruthSame(s.sessions, s'.sessions, s.users);
      forall c | c in s.sessions && c.authenticated ensures ViewOf(s'.sent, c.fd) == ViewOf(s.sent, c.fd) {
        var k :| 0 <= k < |s.sessions| && s.sessions[k] == c;
        ViewOfAppend(s.sent, Opened(fd), c.fd);
      }
    }
  }

  // ------------------------------------------------------------ status updates

  predicate IdsDiffer(a: UiUser, b: UiUser) {
    a.id != b.id
  }

  function Restated(x: UiUser, user: int, profile: string): UiUser {
    if x.id == user then x.(profile := profile) else x
  }

  /** With ids unique and the user already shown online, a status packet changes the user's text and nothing else. */
  lemma {:induction false} WithStatusRestates(shown: seq<UiUser>, user: int, profile: string)
    requires Pairwise(IdsDiffer, shown) && forall x :: x in shown && x.id == user ==> x.online == 1
    ensures WithStatus(shown, user, profile, 1) == Map((x: UiUser) => Restated(x, user, profile), shown)
  {
    if shown != [] {
      var rest := shown[1..];
      if shown[0].id == user {
        forall k | 0 <= k < |rest| ensures Restated(rest[k], user, profile) == rest[k] {
          assert IdsDiffer(shown[0], shown[k + 1]);
        }
      } else {
        WithStatusRestates(rest, user, profile);
      }
    }
  }

  /** The users by name have distinct ids, and so have the true entries. */
  lemma TruthHasDistinctIds(sessions: seq<Session>, users: seq<UserRow>)
    requires UsersOk(users)
    ensures Pairwise(IdsDiffer, Truth(sessions, users))
  {
    SortByPermutes((u: UserRow) => u.name, users);
    PairwisePermutes(UsersDiffer, users, ByName(users));
    var all := Map((u: UserRow) => UiUserOf(sessions, u), ByName(users));
    forall i, j | 0 <= i < j < |all| ensures IdsDiffer(all[i], all[j]) {
      assert UsersDiffer(ByName(users)[i], ByName(users)[j]);
    }
  }

  lemma TruthRestated(sessions: seq<Session>, users: seq<UserRow>, user: int, profile: string)
    ensures Truth(sessions, WithProfile(users, user, profile))
            == Map((x: UiUser) => Restated(x, user, Truncated(profile, STATUS_LEN)), Truth(sessions, users))
  {
    var f := (u: UserRow) => if u.id == user then u.(status := profile) else u;
    SortByOfMap((u: UserRow) => u.name, f, users);
    var rows, rows' := ByName(users), ByName(WithProfile(users, user, profile));
    assert rows' == Map(f, rows);
  }

  /** The shown list follows the truth through a status update of an online user. */
  lemma RestatedIsCoherent(shown: seq<UiUser>, sessions: seq<Session>, users: seq<UserRow>, user: int, profile: string)
    requires UsersOk(users) && Online(sessions, user) && Coherent(shown, Truth(sessions, users))
    ensures Coherent(WithStatus(shown, user, Truncated(profile, STATUS_LEN), 1), Truth(sessions, WithProfile(users, user, profile)))
  {
    var truth, cut := Truth(sessions, users), Truncated(profile, STATUS_LEN);
    var f := (x: UiUser) => Restated(x, user, cut);
    TruthHasDistinctIds(sessions, users);
    PairwisePermutes(IdsDiffer, truth, shown);
    forall x | x in shown && x.id == user ensures x.online == 1 {
      assert x in multiset(truth);
      TruthIsOnline(sessions, users, x);
    }
    WithStatusRestates(shown, user, cut);
    TruthRestated(sessions, users, user, profile);
    MapPermutes(f, shown, truth);
    var shown' := Map(f, shown);
    forall i, j | 0 <= i < j < |shown'| ensures !Before(shown'[j], shown'[i]) {
      assert !Before(shown[j], shown[i]);
    }
  }

  lemma TruthIsOnline(sessions: seq<Session>, users: seq<UserRow>, x: UiUser)
    requires x in Truth(sessions, users)
    ensures x.online == if Online(sessions, x.id) then 1 else 0
  {}

  lemma {:induction false} ToSessionsReaches(sent: seq<Out>, sessions: seq<Session>, users: seq<UserRow>, p: Packet, n: nat, k: nat)
    requires SessionsOk(sessions, users) && k < |sessions| && n <= |sessions| && sessions[k].authenticated
    ensures ViewOf(sent + ToSessions(sessions, p, n), sessions[k].fd)
            == if k < n then Apply(ViewOf(sent, sessions[k].fd), p) else ViewOf(sent, sessions[k].fd)
  {
    hide ViewOf, Apply;
    if n == 0 {
      assert sent + ToSessions(sessions, p, n) == sent;
    } else {
      var c, before := sessions[n - 1], sent + ToSessions(sessions, p, n - 1);
      ToSessionsReaches(sent, sessions, users, p, n - 1, k);
      assert sessions[k] in sessions;
      if k < n - 1 {
        assert SessionsDiffer(sessions[k], sessions[n - 1]);
      } else if n - 1 < k {
        assert SessionsDiffer(sessions[n - 1], sessions[k]);
      }
      if c.fd > 0 && c.authenticated {
        assert sent + ToSessions(sessions, p, n) == before + [Sent(c.fd, p)];
        ViewOfAppend(before, Sent(c.fd, p), sessions[k].fd);
      } else {
        assert sent + ToSessions(sessions, p, n) == before;
      }
    }
  }

  lemma StatusKeepsPresence(s: State, i: nat, profile: string)
    requires Good(s) && PresenceOk(s) && i < |s.sessions| && s.sessions[i].authenticated
    ensures PresenceOk(UpdateStatus(s, i, profile))
  {
    var c := s.sessions[i];
    assert c in s.sessions;
    if |profile| == 0 || |profile| > STATUS_LEN {
      ReplyKeepsPresence(s, c.fd, StatusPacket(RESP_ERR_INVALID, c.id, c.username, "", true));
    } else {
      assert c.Is(c.id);
      var p := StatusPacket(RESP_OK, c.id, c.username, profile, true);
      var s' := UpdateStatus(s, i, profile);
      forall x | x in s.sessions && x.authenticated
        ensures Coherent(ViewOf(s'.sent, x.fd).users, Truth(s.sessions, s'.users))
      {
        var k :| 0 <= k < |s.sessions| && s.sessions[k] == x;
        ToSessionsReaches(s.sent, s.sessions, s.users, p, |s.sessions|, k);
        RestatedIsCoherent(ViewOf(s.sent, x.fd).users, s.sessions, s.users, c.id, profile);
        StatusPacketApplies(ViewOf(s.sent, x.fd), c.id, c.username, profile);
      }
    }
  }

  lemma StatusPacketApplies(v: View, user: int, name: string, profile: string)
    requires ViewOk(v)
    ensures Apply(v, StatusPacket(RESP_OK, user, name, profile, true)).users
            == WithStatus(v.users, user, Truncated(profile, STATUS_LEN), 1)
  {}

  lemma UserListKeepsPresence(s: State, i: nat)
    requires Good(s) && PresenceOk(s) && i < |s.sessions|
    ensures PresenceOk(s.SendAll(Into(s.sessions[i].fd, UserListStream(s.sessions, s.users))))
  {
    var c, stream := s.sessions[i], UserListStream(s.sessions, s.users);
    forall x | x in s.sessions && x.authenticated
      ensures Coherent(ViewOf(s.sent + Into(c.fd, stream), x.fd).users, Truth(s.sessions, s.users))
    {
      if x.fd == c.fd {
        ViewTakes(s.sent, stream, c.fd);
        StreamIsCoherent(ViewOf(s.sent, c.fd), s.sessions, s.users);
      } else {
        IntoFd(c.fd, stream);
        ViewSkips(s.sent, Into(c.fd, stream), x.fd);
      }
    }
  }

  // ------------------------------------------------------------ every event

  lemma QuietStepKeepsPresence(s: State, s': State)
    requires PresenceOk(s) && Quiet(s, s')
    ensures PresenceOk(s')
  {
    QuietKeepsPresence(s, s');
  }

  lemma FriendRequestQuiet(s: State, fd: int, user: int)
    ensures Quiet(s, s.SendAll(Into(fd, FriendListStream(FriendListing(s.friends, s.users, user)))))
  {}

  lemma AuthKeepsPresence(s: State, i: nat, p: Packet, hashOk: bool)
    requires Good(s) && PresenceOk(s) && i < |s.sessions| && p.payload.Auth?
    ensures PresenceOk(HandleAuth(s, i, p, hashOk))
  {
    hide Good, PresenceOk, Register, Login, Logout;
    RegisterKeepsPresence(s, i, p.payload.username, hashOk);
    LoginKeepsPresence(s, i, p.payload.username, hashOk);
    LogoutKeepsPresence(s, i);
  }

  lemma SocialKeepsPresence(s: State, i: nat, p: Packet)
    requires Good(s) && PresenceOk(s) && i < |s.sessions| && p.payload.Social?
    ensures PresenceOk(HandleSocial(s, i, p))
  {
    hide Good, PresenceOk, Quiet, UserListStream, FriendListStream, UpdateStatus, HandleFriend;
    var c, action := s.sessions[i], p.payload.action;
    if !c.authenticated {
      ReplyKeepsPresence(s, c.fd, SocialResponse(action, RESP_ERR_UNAUTHORIZED));
    } else if IsFriendAction(action) {
      FriendQuiet(s, i, action, p.payload.name);
      QuietStepKeepsPresence(s, HandleFriend(s, i, action, p.payload.name));
    } else if action == SOCIAL_LIST_FRIENDS {
      FriendRequestQuiet(s, c.fd, c.id);
      QuietStepKeepsPresence(s, s.SendAll(Into(c.fd, FriendListStream(FriendListing(s.friends, s.users, c.id)))));
    } else if action == SOCIAL_LIST_USERS {
      UserListKeepsPresence(s, i);
    } else if action == SOCIAL_UPDATE_STATUS {
      StatusKeepsPresence(s, i, p.payload.profile);
    } else {
      ReplyKeepsPresence(s, c.fd, SocialResponse(action, RESP_ERR_INVALID));
    }
  }

  /** After every event every authenticated client shows exactly the first 128 users, their texts and who is online. */
  lemma StepKeepsPresence(s: State, e: Event)
    requires Good(s) && PresenceOk(s) && Enabled(s, e)
    ensures PresenceOk(Step(s, e))
  {
    hide Good, PresenceOk, Quiet, Aside, Connect, Disconnect, HandleAuth, HandleDm, HandleServer, HandleChannel, HandleSocial;
    match e
    case Accept(fd) => ConnectKeepsPresence(s, fd);
    case Hangup(i) => DisconnectKeepsPresence(s, i);
    case Request(i, p, hashOk) =>
      match p.payload
      case Auth(_, _, _, _) => AuthKeepsPresence(s, i, p, hashOk);
      case Dm(_, _, _, _, _) =>
        DmAside(s, i, p);
        AsideIsQuiet(s, HandleDm(s, i, p), Dms);
        QuietStepKeepsPresence(s, HandleDm(s, i, p));
      case Server(_, _, _, _, _, _) =>
        ServerAside(s, i, p);
        AsideIsQuiet(s, HandleServer(s, i, p), Servers);
        QuietStepKeepsPresence(s, HandleServer(s, i, p));
      case Channel(_, _, _, _, _, _, _) =>
        ChannelAside(s, i, p);
        AsideIsQuiet(s, HandleChannel(s, i, p), Channels);
        QuietStepKeepsPresence(s, HandleChannel(s, i, p));
      case Social(_, _, _, _, _, _) => SocialKeepsPresence(s, i, p);
  }

  /**
   Replicated presence.  Start the server on any database and let any events happen: connections,
   registrations, logins that take sessions over, logouts, lost connections, status updates and every
   other request.  In every state reached, every authenticated client shows the truth.
   */
  lemma {:induction false} PresenceInEveryRun(s: State, es: seq<Event>)
    requires Good(s) && PresenceOk(s) && Runs(s, es)
    ensures Good(Run(s, es)) && PresenceOk(Run(s, es))
    decreases |es|
  {
    hide Good, PresenceOk, Step;
    if es != [] {
      StepKeepsGood(s, es[0]);
      StepKeepsPresence(s, es[0]);
      PresenceInEveryRun(Step(s, es[0]), es[1..]);
    }
  }

  /** The state the server starts in: nobody connected, on a database that meets its constraints. */
  lemma PresenceFromTheStart(s: State, es: seq<Event>)
    requires s.sessions == [] && DatabaseOk(s) && Runs(s, es)
    ensures Good(Run(s, es)) && PresenceOk(Run(s, es))
  {
    PresenceInEveryRun(s, es);
  }
}
