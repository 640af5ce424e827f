/**
 The replicated friend list.  A client that has been given its list keeps it up to date by the
 pushes of the server; only its own successful requests can leave it behind, and exactly when.
 */
module FriendView {
  import opened Names
  import opened Protocol
  import opened Friends
  import Store
  import opened Listing
  import opened ClientView
  import opened Server
  import opened Invariants
  import opened Traffic

  // ------------------------------------------------------------ what a client should show

  function CutEntry(e: FriendEntry): FriendEntry {
    e.(name := Truncated(e.name, NAME_LEN))
  }

  /** The first 64 entries of `db_list_friend_requests`. */
  function FriendTruth(s: State, user: int): seq<FriendEntry> {
    First(Map((e: FriendEntry) => CutEntry(e), FriendListing(s.friends, s.users, user)), MAX_FRIENDS)
  }

  /** Does the list of `user`, as far as a client has places for it, have an entry for the other user? */
  ghost predicate Lists(s: State, user: int, other: int) {
    exists e :: e in FriendTruth(s, user) && e.id == other
  }

  /** The client behind `fd` shows the friends of `user` as they are. */
  ghost predicate Fresh(s: State, fd: int, user: int) {
    FriendsShown(ViewOf(s.sent, fd)) == FriendTruth(s, user)
  }

  /** The connection `fd` is logged in as `user`. */
  predicate LiveAs(s: State, fd: int, user: int) {
    exists i :: 0 <= i < |s.sessions| && s.sessions[i].fd == fd && s.sessions[i].authenticated && s.sessions[i].id == user
  }

  // ------------------------------------------------------------ who knows

  /** A friend request that took effect: who made it, about whom, and the code of the table operation. */
  datatype Deed = NoDeed | Deed(actor: int, whom: int, rc: int)

  function DeedOf(s: State, e: Event): Deed
    requires Enabled(s, e)
  {
    if e.Request? && e.packet.payload.Social? && s.sessions[e.i].authenticated && IsFriendAction(e.packet.payload.action)
       && NameTaken(s.users, e.packet.payload.name)
    then
      var c, action, other := s.sessions[e.i], e.packet.payload.action, IdOf(s.users, e.packet.payload.name);
      if action == SOCIAL_FRIEND_REQUEST && other == c.id then NoDeed
      else
        var rc := Perform(FriendOp(VerbOf(action), c.id, other, s.Ids()), s.friends).0;
        if rc < 0 then NoDeed else Deed(c.id, other, rc)
    else NoDeed
  }

  predicate AsksForFriends(s: State, e: Event, fd: int)
    requires Enabled(s, e)
  {
    && e.Request? && s.sessions[e.i].fd == fd && s.sessions[e.i].authenticated
    && e.packet.payload.Social? && e.packet.payload.action == SOCIAL_LIST_FRIENDS
  }

  /**
   Whether the client behind `fd` is entitled to a true list of `user` after the event: it has one,
   or it is told because someone acted on the user, because its request befriended the two at once,
   or because it asked.  Its other own deeds cost it the entitlement.
   */
  predicate KnowsNext(s: State, e: Event, fd: int, user: int, knew: bool)
    requires Enabled(s, e)
  {
    && LiveAs(s, fd, user) && LiveAs(Step(s, e), fd, user)
    && match DeedOf(s, e)
       case NoDeed => knew || AsksForFriends(s, e, fd)
       case Deed(actor, whom, rc) => whom == user || (if actor == user then rc == 1 else knew)
  }

  predicate Knows(s: State, es: seq<Event>, fd: int, user: int, knew: bool)
    requires Runs(s, es)
    decreases |es|
  {
    if es == [] then knew else Knows(Step(s, es[0]), es[1..], fd, user, KnowsNext(s, es[0], fd, user, knew))
  }

  // ------------------------------------------------------------ a whole list

  lemma ItemFillsSlot(v: View, e: FriendEntry, index: int)
    requires ViewOk(v)
    ensures FriendsShown(Apply(v, FriendPacket(e, index)))
            == FriendsShown(v) + if v.friendCount < MAX_FRIENDS then [CutEntry(e)] else []
  {}

  lemma {:induction false} ItemsFillSlots(v: View, es: seq<FriendEntry>, k: nat)
    requires ViewOk(v) && v.friendCount == 0 && k <= |es|
    ensures FriendsShown(ApplyAll(v, FriendItems(es)[..k])) == First(Map((e: FriendEntry) => CutEntry(e), es[..k]), MAX_FRIENDS)
  {
    hide Apply, FriendPacket;
    var ps := FriendItems(es);
    if k > 0 {
      ItemsFillSlots(v, es, k - 1);
      assert ps[..k][..k - 1] == ps[..k - 1];
      assert es[..k] == es[..k - 1] + [es[k - 1]];
      assert ps[k - 1] == FriendPacket(es[k - 1], k - 1);
      ItemFillsSlot(ApplyAll(v, ps[..k - 1]), es[k - 1], k - 1);
    }
  }

  lemma StartEmptiesList(v: View)
    requires ViewOk(v)
    ensures ApplyAll(v, [ListStart(SOCIAL_LIST_FRIENDS)]).friendCount == 0
  {}

  lemma EndKeepsList(v: View, total: int)
    requires ViewOk(v)
    ensures ApplyAll(v, [ListEnd(SOCIAL_LIST_FRIENDS, total)]) == v
  {}

  /** A friend-list stream replaces whatever was shown. */
  lemma StreamShowsFriends(v: View, es: seq<FriendEntry>)
    requires ViewOk(v)
    ensures FriendsShown(ApplyAll(v, FriendListStream(es))) == First(Map((e: FriendEntry) => CutEntry(e), es), MAX_FRIENDS)
  {
    hide ApplyAll, ListStart, ListEnd, FriendsShown, First, FriendItems, FriendPacket;
    var start, items, end := [ListStart(SOCIAL_LIST_FRIENDS)], FriendItems(es), [ListEnd(SOCIAL_LIST_FRIENDS, |es|)];
    ApplyAppend(v, start + items, end);
    ApplyAppend(v, start, items);
    StartEmptiesList(v);
    ItemsFillSlots(ApplyAll(v, start), es, |es|);
    assert items[..|es|] == items && es[..|es|] == es;
    EndKeepsList(ApplyAll(v, start + items), |es|);
  }

  // ------------------------------------------------------------ packets that do not matter

  /** The packets that can change the shown friends. */
  predicate TouchesFriends(p: Packet) {
    match p.payload
    case Auth(action, _, _, _) => action == AUTH_LOGOUT
    case Social(_, action, _, _, _, _) => action == SOCIAL_LIST_FRIENDS
    case _ => false
  }

  lemma UntouchedFriends(v: View, p: Packet)
    requires ViewOk(v) && !TouchesFriends(p)
    ensures FriendsShown(Apply(v, p)) == FriendsShown(v)
  {}

  predicate CalmOut(o: Out) {
    o.Sent? && !TouchesFriends(o.packet)
  }

  /** The log goes on without touching the friends shown behind `fd`. */
  ghost predicate CalmFor(a: seq<Out>, b: seq<Out>, fd: int) {
    a <= b && forall k :: |a| <= k < |b| && b[k].fd == fd ==> CalmOut(b[k])
  }

  lemma {:induction false} CalmKeepsFriends(a: seq<Out>, b: seq<Out>, fd: int)
    requires CalmFor(a, b, fd)
    ensures FriendsShown(ViewOf(b, fd)) == FriendsShown(ViewOf(a, fd))
    decreases |b|
  {
    hide ViewOf, FriendsShown, Apply, CalmOut;
    if |a| < |b| {
      var front, last := b[..|b| - 1], b[|b| - 1];
      CalmKeepsFriends(a, front, fd);
      ViewOfAppend(front, last, fd);
      assert b == front + [last];
      if last.fd == fd {
        assert CalmOut(last);
        CalmIsSent(last);
        UntouchedFriends(ViewOf(front, fd), last.packet);
      }
    } else {
      assert a == b;
    }
  }

  lemma CalmIsSent(o: Out)
    requires CalmOut(o)
    ensures o.Sent? && !TouchesFriends(o.packet)
  {}

  lemma CalmTrans(a: seq<Out>, b: seq<Out>, c: seq<Out>, fd: int)
    requires CalmFor(a, b, fd) && CalmFor(b, c, fd)
    ensures CalmFor(a, c, fd)
  {}

  lemma CalmAppend(a: seq<Out>, outs: seq<Out>, fd: int)
    requires forall o :: o in outs && o.fd == fd ==> CalmOut(o)
    ensures CalmFor(a, a + outs, fd)
  {}

  lemma AnnounceIsCalm(s: State, user: int, fd: int)
    ensures CalmFor(s.sent, Announce(s, user).sent, fd)
  {
    AnnounceOuts(s, user);
    hide Announce;
  }

  lemma UserStreamIsCalm(sent: seq<Out>, dest: int, sessions: seq<Session>, users: seq<UserRow>, fd: int)
    ensures CalmFor(sent, sent + Into(dest, UserListStream(sessions, users)), fd)
  {}

  lemma ReplyIsCalm(sent: seq<Out>, dest: int, p: Packet, fd: int)
    requires dest == fd ==> !TouchesFriends(p)
    ensures CalmFor(sent, sent + [Sent(dest, p)], fd)
  {}

  lemma {:induction false} StatusPushesAreCalm(sessions: seq<Session>, p: Packet, n: nat)
    requires n <= |sessions| && !TouchesFriends(p)
    ensures forall o :: o in ToSessions(sessions, p, n) ==> CalmOut(o)
  {
    if n > 0 {
      StatusPushesAreCalm(sessions, p, n - 1);
    }
  }

  lemma {:induction false} RevokedFds(sessions: seq<Session>, fd: int, user: int, name: string, n: nat)
    requires n <= |sessions|
    ensures forall o :: o in RevokeOuts(sessions, fd, user, name, n) ==>
              exists k :: 0 <= k < n && sessions[k].fd == o.fd && IsRevoked(sessions[k], fd, user)
  {
    if n > 0 {
      RevokedFds(sessions, fd, user, name, n - 1);
    }
  }

  // ------------------------------------------------------------ what keeps a listing

  lemma {:induction false} FilterOfMap<T(!new)>(keep: T -> bool, f: T -> T, s: seq<T>)
    requires forall x :: x in s ==> keep(f(x)) == keep(x) && (keep(x) ==> f(x) == x)
    ensures Filter(keep, Map(f, s)) == Filter(keep, s)
  {
    if s != [] {
      FilterOfMap(keep, f, s[..|s| - 1]);
      assert Map(f, s)[..|s| - 1] == Map(f, s[..|s| - 1]);
    }
  }

  ghost predicate Spares(keep: FriendRow -> bool, a: int, b: int) {
    forall r :: keep(r) ==> !r.Joins(a, b)
  }

  lemma AcceptSpares(keep: FriendRow -> bool, t: seq<FriendRow>, me: int, f: int)
    requires Spares(keep, me, f)
    ensures Filter(keep, Friends.Accept(t, me, f).1) == Filter(keep, t)
  {
    hide Filter;
    FilterOfMap(keep, (r: FriendRow) => if r.From(f, me) then r.(accepted := true) else r, t);
    FilterOfFilter(keep, (r: FriendRow) => !(r.From(me, f) && !r.accepted), SetAccepted(t, f, me));
  }

  lemma InsertSpares(keep: FriendRow -> bool, t: seq<FriendRow>, u: int, f: int)
    requires Spares(keep, u, f)
    ensures Filter(keep, t + [FriendRow(u, f, false)]) == Filter(keep, t)
  {}

  /** A request touches only rows that join its two users. */
  lemma OtherRowsStay(keep: FriendRow -> bool, op: FriendOp, t: seq<FriendRow>)
    requires Spares(keep, op.who, op.whom)
    ensures Filter(keep, Perform(op, t).1) == Filter(keep, t)
  {
    hide Filter, Status, Friends.Accept;
    var (u, f) := (op.who, op.whom);
    match op.verb
    case Asks =>
      AcceptSpares(keep, t, u, f);
      InsertSpares(keep, t, u, f);
    case Accepts => AcceptSpares(keep, t, u, f);
    case Rejects => FilterOfFilter(keep, (r: FriendRow) => !(r.From(f, u) && !r.accepted), t);
    case Removes => FilterOfFilter(keep, (r: FriendRow) => !r.Joins(u, f), t);
  }

  /** Requests between others leave a user's list as it is, order included. */
  lemma ListingIgnoresOthers(op: FriendOp, t: seq<FriendRow>, users: seq<UserRow>, me: int)
    requires me != op.who && me != op.whom
    ensures FriendListing(Perform(op, t).1, users, me) == FriendListing(t, users, me)
  {
    OtherRowsStay((r: FriendRow) => r.friend == me && r.user in UserIds(users), op, t);
    OtherRowsStay((r: FriendRow) => r.user == me && r.friend in UserIds(users), op, t);
    hide Perform;
  }

  /** Mapping looks only at the elements. */
  lemma MapSame<T, U>(f: T -> U, f': T -> U, s: seq<T>)
    requires forall x :: x in s ==> f(x) == f'(x)
    ensures Map(f, s) == Map(f', s)
  {
    forall k | 0 <= k < |s| ensures f(s[k]) == f'(s[k]) {
      assert s[k] in s;
    }
  }

  /** Users who keep ids and names leave every list as it is. */
  lemma ListingKeepsNames(t: seq<FriendRow>, users: seq<UserRow>, users': seq<UserRow>, me: int)
    requires References(t, users)
    requires forall id :: id in UserIds(users) ==> id in UserIds(users') && NameOf(users', id) == NameOf(users, id)
    ensures FriendListing(t, users', me) == FriendListing(t, users, me)
  {
    var toMe, toMe' := (r: FriendRow) => r.friend == me && r.user in UserIds(users), (r: FriendRow) => r.friend == me && r.user in UserIds(users');
    var fromMe, fromMe' := (r: FriendRow) => r.user == me && r.friend in UserIds(users), (r: FriendRow) => r.user == me && r.friend in UserIds(users');
    FilterSame(toMe, toMe', t);
    FilterSame(fromMe, fromMe', t);
    FilterMembers(toMe, t);
    FilterMembers(fromMe, t);
    hide Filter, NameOf, UserIds, Map;
    MapSame((r: FriendRow) => FriendEntry(r.user, NameOf(users, r.user), if r.accepted then 2 else 1),
            (r: FriendRow) => FriendEntry(r.user, NameOf(users', r.user), if r.accepted then 2 else 1), Filter(toMe, t));
    MapSame((r: FriendRow) => FriendEntry(r.friend, NameOf(users, r.friend), if r.accepted then 2 else 0),
            (r: FriendRow) => FriendEntry(r.friend, NameOf(users', r.friend), if r.accepted then 2 else 0), Filter(fromMe, t));
  }

  // ------------------------------------------------------------ events that do not matter

  /** The event leaves the friends shown behind `fd` and the list of `user` alone. */
  ghost predicate Undisturbed(s: State, s': State, fd: int, user: int) {
    CalmFor(s.sent, s'.sent, fd) && FriendTruth(s', user) == FriendTruth(s, user)
  }

  lemma UndisturbedStaysFresh(s: State, s': State, fd: int, user: int)
    requires Undisturbed(s, s', fd, user)
    ensures Fresh(s', fd, user) == Fresh(s, fd, user)
  {
    CalmKeepsFriends(s.sent, s'.sent, fd);
  }

  lemma AsideUndisturbed(s: State, s': State, kind: Kind, fd: int, user: int)
    requires Aside(s, s', kind) && (kind.Dms? || kind.Servers? || kind.Channels?)
    ensures Undisturbed(s, s', fd, user)
  {}

  lemma ConnectUndisturbed(s: State, other: int, fd: int, user: int)
    requires Enabled(s, Accept(other)) && LiveAs(s, fd, user)
    ensures Undisturbed(s, Connect(s, other), fd, user)
  {}

  lemma DisconnectUndisturbed(s: State, i: nat, fd: int, user: int)
    requires i < |s.sessions|
    ensures Undisturbed(s, Disconnect(s, i), fd, user)
  {
    hide Announce;
    var s1 := s.(sessions := s.sessions[..i] + s.sessions[i + 1..]);
    AnnounceIsCalm(s1, s.sessions[i].id, fd);
    AnnounceKeepsTables(s1, s.sessions[i].id);
  }

  lemma RegisterUndisturbed(s: State, i: nat, name: string, hashOk: bool, fd: int, user: int)
    requires Good(s) && i < |s.sessions|
    ensures Undisturbed(s, Register(s, i, name, hashOk), fd, user)
  {
    hide NotifyUsers, FriendListing;
    var s', dest := Register(s, i, name, hashOk), s.sessions[i].fd;
    if hashOk && !NameTaken(s.users, name) {
      var u := UserRow(NextId(s.Ids()), name, "");
      UserIdsAppend(s.users, u);
      forall id | id in s.Ids() ensures NameOf(s.users + [u], id) == NameOf(s.users, id) {
        NameOfAppend(s.users, u, id);
      }
      ListingKeepsNames(s.friends, s.users, s.users + [u], user);
      var outs := NotifyUsers(s'.sessions, s'.users, |s'.sessions|);
      UserPushes(s'.sessions, s'.users, |s'.sessions|);
      CalmAppend(s.sent, outs, fd);
      ReplyIsCalm(s.sent + outs, dest, AuthReply(AUTH_REGISTER, RESP_OK, ""), fd);
      CalmTrans(s.sent, s.sent + outs, s'.sent, fd);
    } else {
      ReplyIsCalm(s.sent, dest, s'.sent[|s.sent|].packet, fd);
    }
  }

  lemma OneConnectionPerSocket(sessions: seq<Session>, users: seq<UserRow>, j: nat, k: nat)
    requires SessionsOk(sessions, users) && j < |sessions| && k < |sessions| && sessions[j].fd == sessions[k].fd
    ensures j == k
  {}

  /** The sessions that a login ends are logged out, and only they are told so. */
  lemma RevokedIsNotLive(s: State, i: nat, name: string, k: nat)
    requires Good(s) && i < |s.sessions| && NameTaken(s.users, name) && k < |s.sessions|
    requires IsRevoked(s.sessions[k], s.sessions[i].fd, IdOf(s.users, name))
    ensures forall user :: !LiveAs(Login(s, i, name, true), s.sessions[k].fd, user)
  {
    hide Announce;
    var s' := Login(s, i, name, true);
    LoginSessions(s, i, name);
    forall j | 0 <= j < |s'.sessions| && s'.sessions[j].fd == s.sessions[k].fd ensures !s'.sessions[j].authenticated {
      OneConnectionPerSocket(s.sessions, s.users, j, k);
    }
  }

  lemma LoginSessions(s: State, i: nat, name: string)
    requires i < |s.sessions| && NameTaken(s.users, name)
    ensures var user, fd := IdOf(s.users, name), s.sessions[i].fd;
            var r := Revoked(s.sessions, fd, user);
            Login(s, i, name, true).sessions == r[i := r[i].LoggedIn(user, name)]
  {}

  lemma LoginUndisturbed(s: State, i: nat, name: string, hashOk: bool, fd: int, user: int)
    requires Good(s) && i < |s.sessions| && LiveAs(Login(s, i, name, hashOk), fd, user)
    ensures Undisturbed(s, Login(s, i, name, hashOk), fd, user)
  {
    var s', dest := Login(s, i, name, hashOk), s.sessions[i].fd;
    if hashOk && NameTaken(s.users, name) {
      var id := IdOf(s.users, name);
      var outs := RevokeOuts(s.sessions, dest, id, name, |s.sessions|);
      RevokedFds(s.sessions, dest, id, name, |s.sessions|);
      forall o | o in outs ensures o.fd != fd {
        var k :| 0 <= k < |s.sessions| && s.sessions[k].fd == o.fd && IsRevoked(s.sessions[k], dest, id);
        RevokedIsNotLive(s, i, name, k);
      }
      hide Announce, FriendListing, RevokeOuts, LiveAs, CalmOut, IsRevoked;
      CalmAppend(s.sent, outs, fd);
      var s1 := s.SendAll(outs).(sessions := Revoked(s.sessions, dest, id));
      var s2 := s1.(sessions := s1.sessions[i := s1.sessions[i].LoggedIn(id, name)]);
      AnnounceIsCalm(s2, id, fd);
      CalmTrans(s.sent, s1.sent, Announce(s2, id).sent, fd);
      ReplyIsCalm(Announce(s2, id).sent, dest, AuthReply(AUTH_LOGIN, RESP_OK, ""), fd);
      CalmTrans(s.sent, Announce(s2, id).sent, s'.sent, fd);
      AnnounceKeepsTables(s2, id);
    } else {
      ReplyIsCalm(s.sent, dest, s'.sent[|s.sent|].packet, fd);
    }
  }

  lemma AnnounceKeepsTables(s: State, user: int)
    ensures Announce(s, user) == s.(sent := Announce(s, user).sent)
  {}

  lemma LogoutUndisturbed(s: State, i: nat, fd: int, user: int)
    requires Good(s) && i < |s.sessions| && LiveAs(s, fd, user) && LiveAs(Logout(s, i), fd, user)
    ensures Undisturbed(s, Logout(s, i), fd, user)
  {
    hide Announce, FriendListing;
    var c, s' := s.sessions[i], Logout(s, i);
    var s1 := if c.authenticated then Announce(s.(sessions := s.sessions[i := c.Cleared()]), c.id) else s;
    if c.authenticated {
      AnnounceIsCalm(s.(sessions := s.sessions[i := c.Cleared()]), c.id, fd);
      AnnounceKeepsTables(s.(sessions := s.sessions[i := c.Cleared()]), c.id);
    }
    LoggedOutIsNotLive(s, i, user);
    ReplyIsCalm(s1.sent, c.fd, s'.sent[|s1.sent|].packet, fd);
    CalmTrans(s.sent, s1.sent, s'.sent, fd);
  }

  lemma LoggedOutIsNotLive(s: State, i: nat, user: int)
    requires Good(s) && i < |s.sessions|
    ensures !LiveAs(Logout(s, i), s.sessions[i].fd, user)
  {}

  lemma AuthUndisturbed(s: State, i: nat, p: Packet, hashOk: bool, fd: int, user: int)
    requires Good(s) && i < |s.sessions| && p.payload.Auth?
    requires LiveAs(s, fd, user) && LiveAs(HandleAuth(s, i, p, hashOk), fd, user)
    ensures Undisturbed(s, HandleAuth(s, i, p, hashOk), fd, user)
  {
    hide Good, LiveAs, Register, Login, Logout, FriendTruth;
    if p.payload.action == AUTH_REGISTER {
      RegisterUndisturbed(s, i, p.payload.username, hashOk, fd, user);
    } else if p.payload.action == AUTH_LOGIN {
      LoginUndisturbed(s, i, p.payload.username, hashOk, fd, user);
    } else if p.payload.action == AUTH_LOGOUT {
      LogoutUndisturbed(s, i, fd, user);
    }
  }

  lemma StatusUndisturbed(s: State, i: nat, profile: string, fd: int, user: int)
    requires Good(s) && i < |s.sessions|
    ensures Undisturbed(s, UpdateStatus(s, i, profile), fd, user)
  {
    hide FriendListing, ToSessions, NameOf;
    var c := s.sessions[i];
    forall id | id in s.Ids()
      ensures id in UserIds(WithProfile(s.users, c.id, profile))
      ensures NameOf(WithProfile(s.users, c.id, profile), id) == NameOf(s.users, id)
    {
      ProfileKeepsNames(s.users, c.id, profile, id);
    }
    ListingKeepsNames(s.friends, s.users, WithProfile(s.users, c.id, profile), user);
    var p := StatusPacket(RESP_OK, c.id, c.username, profile, Online(s.sessions, c.id));
    StatusPushesAreCalm(s.sessions, p, |s.sessions|);
    CalmAppend(s.sent, ToSessions(s.sessions, p, |s.sessions|), fd);
  }

  // ------------------------------------------------------------ pushes

  lemma LiveIds(s: State, fd: int, user: int)
    requires Good(s) && LiveAs(s, fd, user)
    ensures 0 < user && user in s.Ids()
  {
    var i :| 0 <= i < |s.sessions| && s.sessions[i].fd == fd && s.sessions[i].authenticated && s.sessions[i].id == user;
    assert s.sessions[i] in s.sessions;
    UserIdIn(s.users);
  }

  /** The push loop stops at the first connection with the user's id: that is the user's live one. */
  lemma NotifyReachesUser(s: State, fd: int, user: int)
    requires Good(s) && LiveAs(s, fd, user)
    ensures NotifyFriends(s, user) == Into(fd, FriendListStream(FriendListing(s.friends, s.users, user)))
  {
    LiveIds(s, fd, user);
    FirstMatchIsOnlyMatch(s, user);
    var i :| 0 <= i < |s.sessions| && s.sessions[i].fd == fd && s.sessions[i].authenticated && s.sessions[i].id == user;
    assert s.sessions[i] in s.sessions;
    assert s.sessions[i].Is(user);
    hide Good, FriendListing, FriendListStream, Into;
  }

  lemma NotifySparesOthers(s: State, other: int, fd: int, user: int)
    requires Good(s) && LiveAs(s, fd, user) && user != other
    ensures CalmFor(s.sent, s.sent + NotifyFriends(s, other), fd)
  {}

  lemma PushRefreshes(s: State, fd: int, user: int)
    ensures Fresh(s.SendAll(Into(fd, FriendListStream(FriendListing(s.friends, s.users, user)))), fd, user)
  {
    hide FriendListing, FriendListStream, ViewOf, ApplyAll, FriendsShown;
    var es := FriendListing(s.friends, s.users, user);
    ViewTakes(s.sent, FriendListStream(es), fd);
    StreamShowsFriends(ViewOf(s.sent, fd), es);
  }

  // ------------------------------------------------------------ friend requests

  /** The database operation behind a friend request of connection `i`. */
  function OpAt(s: State, i: nat, action: int, name: string): FriendOp
    requires i < |s.sessions| && IsFriendAction(action)
  {
    FriendOp(VerbOf(action), s.sessions[i].id, IdOf(s.users, name), s.Ids())
  }

  /** After the table operation and the answer; before the pushes. */
  function Answered(s: State, i: nat, action: int, name: string): State
    requires i < |s.sessions| && IsFriendAction(action)
  {
    s.(friends := Perform(OpAt(s, i, action, name), s.friends).1).Send(s.sessions[i].fd, SocialResponse(action, RESP_OK))
  }

  /** What an accepted friend request leaves: the answer, perhaps a push to the actor, a push to the other user. */
  lemma AcceptedRequest(s: State, i: nat, action: int, name: string, hashOk: bool, p: Packet)
    requires i < |s.sessions| && s.sessions[i].authenticated && p.payload.Social?
    requires p.payload.action == action && p.payload.name == name && IsFriendAction(action)
    requires DeedOf(s, Request(i, p, hashOk)).Deed?
    ensures var d, s2 := DeedOf(s, Request(i, p, hashOk)), Answered(s, i, action, name);
            var s3 := if d.rc == 1 then s2.SendAll(NotifyFriends(s2, d.actor)) else s2;
            && d == Deed(s.sessions[i].id, IdOf(s.users, name), Perform(OpAt(s, i, action, name), s.friends).0)
            && NameTaken(s.users, name)
            && HandleFriend(s, i, action, name) == s3.SendAll(NotifyFriends(s3, d.whom))
  {}

  lemma RefusedRequest(s: State, i: nat, action: int, name: string, hashOk: bool, p: Packet, fd: int, user: int)
    requires Good(s) && i < |s.sessions| && s.sessions[i].authenticated && p.payload.Social?
    requires p.payload.action == action && p.payload.name == name && IsFriendAction(action)
    requires DeedOf(s, Request(i, p, hashOk)).NoDeed?
    ensures Undisturbed(s, HandleFriend(s, i, action, name), fd, user)
  {
    PerformRefines(OpAt(s, i, action, name), s.friends, 0, 0);
    hide Perform, NotifyFriends, NameTaken, IdOf, FriendListing, Good;
    var c, rc := s.sessions[i], Perform(OpAt(s, i, action, name), s.friends).0;
    ReplyIsCalm(s.sent, c.fd, SocialResponse(action, RESP_ERR_NOT_FOUND), fd);
    ReplyIsCalm(s.sent, c.fd, SocialResponse(action, RESP_ERR_INVALID), fd);
    ReplyIsCalm(s.sent, c.fd, SocialResponse(action, FriendError(action, rc)), fd);
  }

  lemma AnsweredIsGood(s: State, i: nat, action: int, name: string)
    requires Good(s) && i < |s.sessions| && IsFriendAction(action)
    ensures Good(Answered(s, i, action, name))
  {
    NewFriendsKeepDatabase(s, OpAt(s, i, action, name));
    hide DatabaseOk, SessionsOk, Perform;
  }

  /** What the three kinds of clients show after an accepted request. */
  lemma AfterRequest(s: State, i: nat, action: int, name: string, hashOk: bool, p: Packet, fd: int, user: int)
    requires Good(s) && i < |s.sessions| && s.sessions[i].authenticated && p.payload.Social?
    requires p.payload.action == action && p.payload.name == name && IsFriendAction(action)
    requires DeedOf(s, Request(i, p, hashOk)).Deed? && LiveAs(s, fd, user)
    ensures var d := DeedOf(s, Request(i, p, hashOk));
            if d.whom == user || (d.actor == user && d.rc == 1) then Fresh(HandleFriend(s, i, action, name), fd, user)
            else if d.actor != user then Undisturbed(s, HandleFriend(s, i, action, name), fd, user)
            else CalmFor(s.sent, HandleFriend(s, i, action, name).sent, fd)
  {
    hide Perform, NotifyFriends, NameTaken, IdOf, FriendListing, Good, CalmFor, IsFriendAction, VerbOf, FriendsShown, ViewOf, DeedOf;
    AcceptedRequest(s, i, action, name, hashOk, p);
    var d, s2 := DeedOf(s, Request(i, p, hashOk)), Answered(s, i, action, name);
    AnsweredIsGood(s, i, action, name);
    ResponseIsCalm(s.sent, s.sessions[i].fd, action, fd);
    var s3 := if d.rc == 1 then s2.SendAll(NotifyFriends(s2, d.actor)) else s2;
    LogIsIrrelevant(s2, s3.sent);
    var s4 := HandleFriend(s, i, action, name);
    if d.whom == user {
      NotifyReachesUser(s3, fd, user);
      PushRefreshes(s3, fd, user);
    } else {
      NotifySparesOthers(s3, d.whom, fd, user);
      if d.actor == user && d.rc == 1 {
        NotifyReachesUser(s2, fd, user);
        PushRefreshes(s2, fd, user);
        UndisturbedStaysFresh(s3, s4, fd, user);
      } else {
        if d.rc == 1 {
          NotifySparesOthers(s2, d.actor, fd, user);
          CalmTrans(s.sent, s2.sent, s3.sent, fd);
        }
        CalmTrans(s.sent, s3.sent, s4.sent, fd);
        if d.actor != user {
          ListingIgnoresOthers(OpAt(s, i, action, name), s.friends, s.users, user);
        }
      }
    }
  }

  lemma ResponseIsCalm(sent: seq<Out>, dest: int, action: int, fd: int)
    requires IsFriendAction(action)
    ensures CalmFor(sent, sent + [Sent(dest, SocialResponse(action, RESP_OK))], fd)
  {}

  // ------------------------------------------------------------ every event

  /** What the event does to a client that stays logged in as `user`. */
  ghost predicate Follows(s: State, e: Event, s': State, fd: int, user: int)
    requires Enabled(s, e)
  {
    match DeedOf(s, e)
    case NoDeed => if AsksForFriends(s, e, fd) then Fresh(s', fd, user) else Undisturbed(s, s', fd, user)
    case Deed(actor, whom, rc) =>
      if whom == user || (actor == user && rc == 1) then Fresh(s', fd, user)
      else if actor != user then Undisturbed(s, s', fd, user)
      else CalmFor(s.sent, s'.sent, fd)
  }

  lemma LiveConnection(s: State, i: nat, fd: int, user: int)
    requires Good(s) && i < |s.sessions| && LiveAs(s, fd, user) && s.sessions[i].fd == fd
    ensures s.sessions[i].authenticated && s.sessions[i].id == user
  {}

  lemma ListRequestFollows(s: State, i: nat, p: Packet, hashOk: bool, fd: int, user: int)
    requires Good(s) && i < |s.sessions| && LiveAs(s, fd, user) && s.sessions[i].authenticated
    requires p.payload.Social? && p.payload.action == SOCIAL_LIST_FRIENDS
    ensures Follows(s, Request(i, p, hashOk), HandleSocial(s, i, p), fd, user)
  {
    hide FriendListing, FriendListStream, Good, Fresh;
    var c := s.sessions[i];
    var stream := FriendListStream(FriendListing(s.friends, s.users, c.id));
    if c.fd == fd {
      LiveConnection(s, i, fd, user);
      PushRefreshes(s, fd, user);
    } else {
      IntoFd(c.fd, stream);
      CalmAppend(s.sent, Into(c.fd, stream), fd);
    }
  }

  lemma SocialFollows(s: State, i: nat, p: Packet, hashOk: bool, fd: int, user: int)
    requires Good(s) && i < |s.sessions| && LiveAs(s, fd, user) && p.payload.Social?
    ensures Follows(s, Request(i, p, hashOk), HandleSocial(s, i, p), fd, user)
  {
    hide HandleFriend, UpdateStatus, FriendListing, UserListStream, Good, Fresh, LiveAs, CalmOut, FriendListStream;
    var c, action := s.sessions[i], p.payload.action;
    if !c.authenticated {
      if c.fd == fd {
        LiveConnection(s, i, fd, user);
      }
      ReplyIsCalm(s.sent, c.fd, SocialResponse(action, RESP_ERR_UNAUTHORIZED), fd);
    } else if IsFriendAction(action) {
      if DeedOf(s, Request(i, p, hashOk)).NoDeed? {
        RefusedRequest(s, i, action, p.payload.name, hashOk, p, fd, user);
      } else {
        AfterRequest(s, i, action, p.payload.name, hashOk, p, fd, user);
      }
    } else if action == SOCIAL_LIST_FRIENDS {
      ListRequestFollows(s, i, p, hashOk, fd, user);
    } else if action == SOCIAL_LIST_USERS {
      UserStreamIsCalm(s.sent, c.fd, s.sessions, s.users, fd);
    } else if action == SOCIAL_UPDATE_STATUS {
      StatusUndisturbed(s, i, p.payload.profile, fd, user);
    } else {
      ReplyIsCalm(s.sent, c.fd, SocialResponse(action, RESP_ERR_INVALID), fd);
    }
  }

  lemma StepFollows(s: State, e: Event, fd: int, user: int)
    requires Good(s) && Enabled(s, e) && LiveAs(s, fd, user) && LiveAs(Step(s, e), fd, user)
    ensures Follows(s, e, Step(s, e), fd, user)
  {
    hide Good, LiveAs, Undisturbed, Fresh, Aside, Connect, Disconnect, HandleAuth, HandleDm, HandleServer, HandleChannel, HandleSocial;
    match e
    case Accept(other) => ConnectUndisturbed(s, other, fd, user);
    case Hangup(i) => DisconnectUndisturbed(s, i, fd, user);
    case Request(i, p, hashOk) =>
      match p.payload
      case Auth(_, _, _, _) => AuthUndisturbed(s, i, p, hashOk, fd, user);
      case Dm(_, _, _, _, _) =>
        DmAside(s, i, p);
        AsideUndisturbed(s, Step(s, e), Dms, fd, user);
      case Server(_, _, _, _, _, _) =>
        ServerAside(s, i, p);
        AsideUndisturbed(s, Step(s, e), Servers, fd, user);
      case Channel(_, _, _, _, _, _, _) =>
        ChannelAside(s, i, p);
        AsideUndisturbed(s, Step(s, e), Channels, fd, user);
      case Social(_, _, _, _, _, _) => SocialFollows(s, i, p, hashOk, fd, user);
  }

  lemma StepKeepsFresh(s: State, e: Event, fd: int, user: int, knew: bool)
    requires Good(s) && Enabled(s, e) && (knew ==> Fresh(s, fd, user))
    ensures KnowsNext(s, e, fd, user, knew) ==> Fresh(Step(s, e), fd, user)
  {
    hide Good, LiveAs, Undisturbed, Fresh, Step, DeedOf, AsksForFriends;
    if KnowsNext(s, e, fd, user, knew) {
      StepFollows(s, e, fd, user);
      if Undisturbed(s, Step(s, e), fd, user) {
        UndisturbedStaysFresh(s, Step(s, e), fd, user);
      }
    }
  }

  /**
   Replicated friend lists.  Through any events, a connection that stays logged in as a user, has been
   given the friend list once, and has since been answered by a push or a list after each of its own
   deeds, shows the user's friends exactly; what other users do never leaves it behind.
   */
  lemma {:induction false} FriendsInEveryRun(s: State, es: seq<Event>, fd: int, user: int, knew: bool)
    requires Good(s) && Runs(s, es) && (knew ==> Fresh(s, fd, user))
    ensures Knows(s, es, fd, user, knew) ==> Fresh(Run(s, es), fd, user)
    decreases |es|
  {
    hide Good, Fresh, Step, KnowsNext;
    if es != [] {
      StepKeepsGood(s, es[0]);
      StepKeepsFresh(s, es[0], fd, user, knew);
      FriendsInEveryRun(Step(s, es[0]), es[1..], fd, user, KnowsNext(s, es[0], fd, user, knew));
    }
  }

  // ------------------------------------------------------------ why the exception is needed

  lemma FirstIsCut(es: seq<FriendEntry>, x: FriendEntry) returns (e: FriendEntry)
    requires x in First(Map((x: FriendEntry) => CutEntry(x), es), MAX_FRIENDS)
    ensures e in es && x == CutEntry(e)
  {
    var cut := Map((x: FriendEntry) => CutEntry(x), es);
    var k :| 0 <= k < |cut| && cut[k] == x;
    e := es[k];
  }

  /** A successful request changes the kind of entry its actor has for the other user. */
  lemma DeedMovesPair(op: FriendOp, t: seq<FriendRow>)
    requires TableOk(t) && Perform(op, t).0 >= 0
    ensures var p, p' := PairOf(t, op.who, op.whom), PairOf(Perform(op, t).1, op.who, op.whom);
            (p == Strangers) != (p' == Strangers) || (p != Strangers && p' != Strangers && KindFor(p, op.who) != KindFor(p', op.who))
  {
    PerformRefines(op, t, op.who, op.whom);
    RowsOfPair(t, op.who, op.whom);
    hide Perform, PairOf, RunRequests;
  }

  /** An entry that is shown decides its pair: equal showings give equal kinds. */
  lemma ShownDecidesPair(s: State, s': State, user: int, other: int)
    requires TableOk(s.friends) && References(s.friends, s.users) && TableOk(s'.friends) && References(s'.friends, s'.users)
    requires Lists(s, user, other) && FriendTruth(s', user) == FriendTruth(s, user)
    ensures var p, p' := PairOf(s.friends, user, other), PairOf(s'.friends, user, other);
            p != Strangers && p' != Strangers && KindFor(p, user) == KindFor(p', user)
  {
    hide FriendListing, TableOk, References, PairOf, NameOf;
    var x :| x in FriendTruth(s, user) && x.id == other;
    var e := FirstIsCut(FriendListing(s.friends, s.users, user), x);
    var e' := FirstIsCut(FriendListing(s'.friends, s'.users, user), x);
    ListingShowsPairs(s.friends, s.users, user, e);
    ListingShowsPairs(s'.friends, s'.users, user, e');
  }

  // ------------------------------------------------------------ deeds beyond the places of a client

  lemma {:induction false} FilterOfMapped<T(!new), U(!new)>(keep: U -> bool, g: T -> bool, f: T -> U, s: seq<T>)
    requires forall x :: g(x) == keep(f(x))
    ensures Filter(keep, Map(f, s)) == Map(f, Filter(g, s))
  {
    if s != [] {
      FilterOfMapped(keep, g, f, s[..|s| - 1]);
      assert Map(f, s)[..|s| - 1] == Map(f, s[..|s| - 1]);
    }
  }

  /** The rows of one arm of a listing, without those of one other user. */
  lemma ArmWithout(arm: FriendRow -> bool, g: FriendRow -> bool, both: FriendRow -> bool, f: FriendRow -> FriendEntry, t: seq<FriendRow>, other: int)
    requires (forall r :: g(r) == (f(r).id != other)) && forall r :: both(r) == (arm(r) && g(r))
    ensures Filter((e: FriendEntry) => e.id != other, Map(f, Filter(arm, t))) == Map(f, Filter(both, t))
  {
    FilterOfMapped((e: FriendEntry) => e.id != other, g, f, Filter(arm, t));
    FilterMembers(arm, t);
    FilterSame(g, both, Filter(arm, t));
    FilterOfFilter(both, arm, t);
  }

  /** A listing without the entries of one user. */
  function Besides(es: seq<FriendEntry>, other: int): seq<FriendEntry> {
    Filter((e: FriendEntry) => e.id != other, es)
  }

  /** A request changes nothing in a list but the entry of the other user. */
  lemma OtherEntriesStay(op: FriendOp, t: seq<FriendRow>, users: seq<UserRow>)
    requires op.who != op.whom
    ensures Besides(FriendListing(Perform(op, t).1, users, op.who), op.whom) == Besides(FriendListing(t, users, op.who), op.whom)
  {
    var me, other, t' := op.who, op.whom, Perform(op, t).1;
    var toMe, fromMe := (r: FriendRow) => r.friend == me && r.user in UserIds(users), (r: FriendRow) => r.user == me && r.friend in UserIds(users);
    var toMe', fromMe' := (r: FriendRow) => r.friend == me && r.user in UserIds(users) && r.user != other,
                          (r: FriendRow) => r.user == me && r.friend in UserIds(users) && r.friend != other;
    var f := (r: FriendRow) => FriendEntry(r.user, NameOf(users, r.user), if r.accepted then 2 else 1);
    var g := (r: FriendRow) => FriendEntry(r.friend, NameOf(users, r.friend), if r.accepted then 2 else 0);
    OtherRowsStay(toMe', op, t);
    OtherRowsStay(fromMe', op, t);
    hide Perform, Filter, NameOf, UserIds;
    ArmWithout(toMe, (r: FriendRow) => r.user != other, toMe', f, t, other);
    ArmWithout(toMe, (r: FriendRow) => r.user != other, toMe', f, t', other);
    ArmWithout(fromMe, (r: FriendRow) => r.friend != other, fromMe', g, t, other);
    ArmWithout(fromMe, (r: FriendRow) => r.friend != other, fromMe', g, t', other);
    ListingParts(t, users, me, other, toMe, fromMe, f, g);
    ListingParts(t', users, me, other, toMe, fromMe, f, g);
  }

  lemma ListingParts(t: seq<FriendRow>, users: seq<UserRow>, me: int, other: int, toMe: FriendRow -> bool, fromMe: FriendRow -> bool,
                     f: FriendRow -> FriendEntry, g: FriendRow -> FriendEntry)
    requires toMe == ((r: FriendRow) => r.friend == me && r.user in UserIds(users))
    requires fromMe == ((r: FriendRow) => r.user == me && r.friend in UserIds(users))
    requires f == ((r: FriendRow) => FriendEntry(r.user, NameOf(users, r.user), if r.accepted then 2 else 1))
    requires g == ((r: FriendRow) => FriendEntry(r.friend, NameOf(users, r.friend), if r.accepted then 2 else 0))
    ensures Besides(FriendListing(t, users, me), other)
            == Filter((e: FriendEntry) => e.id != other, Map(f, Filter(toMe, t))) + Filter((e: FriendEntry) => e.id != other, Map(g, Filter(fromMe, t)))
  {
    hide Filter, NameOf, UserIds;
    FilterAppend((e: FriendEntry) => e.id != other, Map(f, Filter(toMe, t)), Map(g, Filter(fromMe, t)));
  }

  lemma {:induction false} FirstOfFilter<T(!new)>(keep: T -> bool, s: seq<T>, n: nat)
    requires forall x :: x in First(s, n) ==> keep(x)
    ensures First(Filter(keep, s), n) == First(s, n)
  {
    if |s| <= n {
      FilterEverything(keep, s);
    } else {
      var front := s[..|s| - 1];
      assert First(s, n) == First(front, n);
      FirstOfFilter(keep, front, n);
    }
  }

  /** What is shown does not depend on an entry that has no place. */
  lemma HiddenEntry(s: State, user: int, other: int)
    requires !Lists(s, user, other)
    ensures FriendTruth(s, user) == First(Map((e: FriendEntry) => CutEntry(e), Besides(FriendListing(s.friends, s.users, user), other)), MAX_FRIENDS)
  {
    hide FriendListing, Filter;
    var es, keep := FriendListing(s.friends, s.users, user), (e: FriendEntry) => e.id != other;
    var cut := Map((e: FriendEntry) => CutEntry(e), es);
    forall e | e in First(es, MAX_FRIENDS) ensures keep(e) {
      var k :| 0 <= k < |First(es, MAX_FRIENDS)| && First(es, MAX_FRIENDS)[k] == e;
      assert First(cut, MAX_FRIENDS)[k] == CutEntry(e);
    }
    FirstOfFilter(keep, es, MAX_FRIENDS);
    FirstOfCut(es);
    FirstOfCut(Besides(es, other));
  }

  lemma FirstOfCut(es: seq<FriendEntry>)
    ensures First(Map((e: FriendEntry) => CutEntry(e), es), MAX_FRIENDS) == Map((e: FriendEntry) => CutEntry(e), First(es, MAX_FRIENDS))
  {}

  /**
   The exact condition.  A client that was fresh goes stale by one kind of event alone, and by every event of
   this kind: a request of its own user that succeeds without a push and is about somebody who has a place
   in the list, before or after it.  Within 64 entries that is everybody.
   */
  lemma OwnDeedGoesStale(s: State, e: Event, fd: int, user: int)
    requires Good(s) && Enabled(s, e) && Fresh(s, fd, user)
    requires LiveAs(s, fd, user) && LiveAs(Step(s, e), fd, user)
    ensures var d, s' := DeedOf(s, e), Step(s, e);
            var unpushed := d.Deed? && d.actor == user && d.rc == 0;
            && (Fresh(s', fd, user) <==> !(unpushed && (Lists(s, user, d.whom) || Lists(s', user, d.whom))))
            && (unpushed && |FriendListing(s.friends, s.users, user)| <= MAX_FRIENDS && |FriendListing(s'.friends, s'.users, user)| <= MAX_FRIENDS
                ==> Lists(s, user, d.whom) || Lists(s', user, d.whom))
  {
    var d, s' := DeedOf(s, e), Step(s, e);
    hide Good, LiveAs, Step, Fresh, FriendListing, Lists;
    StepFollows(s, e, fd, user);
    if d.Deed? && d.actor == user && d.rc != 1 {
      UnpushedDeed(s, e, fd, user);
    } else if Undisturbed(s, s', fd, user) {
      UndisturbedStaysFresh(s, s', fd, user);
    }
  }

  lemma UnpushedDeed(s: State, e: Event, fd: int, user: int)
    requires Good(s) && Enabled(s, e) && Fresh(s, fd, user)
    requires LiveAs(s, fd, user) && LiveAs(Step(s, e), fd, user)
    requires DeedOf(s, e).Deed? && DeedOf(s, e).actor == user && DeedOf(s, e).rc != 1
    ensures var whom, s' := DeedOf(s, e).whom, Step(s, e);
            && (Fresh(s', fd, user) <==> !(Lists(s, user, whom) || Lists(s', user, whom))) && DeedOf(s, e).rc == 0
            && (|FriendListing(s.friends, s.users, user)| <= MAX_FRIENDS && |FriendListing(s'.friends, s'.users, user)| <= MAX_FRIENDS
                ==> Lists(s, user, whom) || Lists(s', user, whom))
  {
    var i, p := e.i, e.packet;
    var action, name, s' := p.payload.action, p.payload.name, Step(s, e);
    var op := OpAt(s, i, action, name);
    hide FriendListing, Good, LiveAs, NotifyFriends, NameTaken, IdOf, CalmFor, ViewOf, FriendsShown, Perform, FriendTruth, Lists, OpAt, Step;
    DeedStep(s, e, fd, user);
    CalmKeepsFriends(s.sent, s'.sent, fd);
    StepKeepsGood(s, e);
    DeedChangesTruth(s, s', op);
  }

  /** An unpushed deed of one's own: the table operation, and nothing for the own client. */
  lemma DeedStep(s: State, e: Event, fd: int, user: int)
    requires Good(s) && Enabled(s, e) && LiveAs(s, fd, user) && LiveAs(Step(s, e), fd, user)
    requires DeedOf(s, e).Deed? && DeedOf(s, e).actor == user && DeedOf(s, e).rc != 1
    ensures var op, s' := OpAt(s, e.i, e.packet.payload.action, e.packet.payload.name), Step(s, e);
            && op.who == user && op.whom == DeedOf(s, e).whom && DeedOf(s, e).rc == 0 && op.who != op.whom
            && Perform(op, s.friends).0 == 0 && s'.friends == Perform(op, s.friends).1 && s'.users == s.users
            && CalmFor(s.sent, s'.sent, fd)
  {
    var i, p := e.i, e.packet;
    var action, name, s' := p.payload.action, p.payload.name, Step(s, e);
    hide FriendListing, Good, LiveAs, NotifyFriends, NameTaken, IdOf, CalmFor, ViewOf, FriendsShown, Perform, FriendTruth;
    StepFollows(s, e, fd, user);
    AcceptedRequest(s, i, action, name, e.hashOk, p);
    DeedIsNotToOneself(s, OpAt(s, i, action, name));
  }

  /** A successful request changes what a client should show exactly if the other user has a place in the list. */
  lemma DeedChangesTruth(s: State, s': State, op: FriendOp)
    requires Good(s) && Good(s') && op.who != op.whom && Perform(op, s.friends).0 >= 0
    requires s'.friends == Perform(op, s.friends).1 && s'.users == s.users
    ensures FriendTruth(s', op.who) != FriendTruth(s, op.who) <==> Lists(s, op.who, op.whom) || Lists(s', op.who, op.whom)
    ensures |FriendListing(s.friends, s.users, op.who)| <= MAX_FRIENDS && |FriendListing(s'.friends, s'.users, op.who)| <= MAX_FRIENDS
            ==> Lists(s, op.who, op.whom) || Lists(s', op.who, op.whom)
  {
    var user, whom := op.who, op.whom;
    hide FriendListing, Good, TableOk, References, PairOf, KindFor, Perform, FriendTruth, Lists, Besides;
    GoodTables(s);
    GoodTables(s');
    DeedMovesPair(op, s.friends);
    if FriendTruth(s', user) == FriendTruth(s, user) {
      if Lists(s, user, whom) {
        ShownDecidesPair(s, s', user, whom);
      } else if Lists(s', user, whom) {
        ShownDecidesPair(s', s, user, whom);
      }
    }
    if !Lists(s, user, whom) && !Lists(s', user, whom) {
      OtherEntriesStay(op, s.friends, s.users);
      HiddenEntry(s, user, whom);
      HiddenEntry(s', user, whom);
    }
    if PairOf(s.friends, user, whom) != Strangers {
      WithinPlaces(s, user, whom);
    } else {
      WithinPlaces(s', user, whom);
    }
  }

  /** Within 64 entries everybody who is no stranger has a place. */
  lemma WithinPlaces(s: State, user: int, other: int)
    requires TableOk(s.friends) && References(s.friends, s.users) && PairOf(s.friends, user, other) != Strangers
    ensures |FriendListing(s.friends, s.users, user)| <= MAX_FRIENDS ==> Lists(s, user, other)
  {
    hide FriendListing, TableOk, References, PairOf, NameOf;
    var es := FriendListing(s.friends, s.users, user);
    var e := FriendEntry(other, NameOf(s.users, other), KindFor(PairOf(s.friends, user, other), user));
    ListingShowsPairs(s.friends, s.users, user, e);
    var k :| 0 <= k < |es| && es[k] == e;
    if |es| <= MAX_FRIENDS {
      assert FriendTruth(s, user)[k] == CutEntry(e);
    }
  }

  lemma DeedIsNotToOneself(s: State, op: FriendOp)
    requires Good(s) && Perform(op, s.friends).0 >= 0
    ensures op.who != op.whom && 0 <= Perform(op, s.friends).0 <= 1
  {}

  lemma GoodTables(s: State)
    requires Good(s)
    ensures TableOk(s.friends) && References(s.friends, s.users)
  {}

  // ------------------------------------------------------------ answers

  /** A friend request is answered first of all, and the answer is OK exactly when the request changed the table. */
  lemma AnswerTellsTruth(s: State, i: nat, p: Packet, hashOk: bool)
    requires Good(s) && i < |s.sessions| && s.sessions[i].authenticated
    requires p.payload.Social? && IsFriendAction(p.payload.action)
    ensures var s' := Step(s, Request(i, p, hashOk));
            && |s.sent| < |s'.sent| && s.sent <= s'.sent
            && exists status :: s'.sent[|s.sent|] == Sent(s.sessions[i].fd, SocialResponse(p.payload.action, status))
                                && (status == RESP_OK <==> s'.friends != s.friends)
  {
    var action, name, e := p.payload.action, p.payload.name, Request(i, p, hashOk);
    var op, s' := OpAt(s, i, action, name), Step(s, e);
    hide Good, NotifyFriends, NameTaken, IdOf, Perform, PairOf, TableOk, HandleFriend, DeedOf;
    GoodTables(s);
    if DeedOf(s, e).Deed? {
      DeedIsAnswered(s, i, action, name, hashOk, p);
      DeedMovesPair(op, s.friends);
    } else {
      PerformRefines(op, s.friends, 0, 0);
      RefusalIsAnswered(s, i, action, name, hashOk, p);
    }
  }

  lemma DeedIsAnswered(s: State, i: nat, action: int, name: string, hashOk: bool, p: Packet)
    requires i < |s.sessions| && s.sessions[i].authenticated && p.payload.Social?
    requires p.payload.action == action && p.payload.name == name && IsFriendAction(action)
    requires DeedOf(s, Request(i, p, hashOk)).Deed?
    ensures var s', op := HandleFriend(s, i, action, name), OpAt(s, i, action, name);
            && s.sent + [Sent(s.sessions[i].fd, SocialResponse(action, RESP_OK))] <= s'.sent
            && s'.friends == Perform(op, s.friends).1 && Perform(op, s.friends).0 >= 0
  {}

  lemma RefusalIsAnswered(s: State, i: nat, action: int, name: string, hashOk: bool, p: Packet)
    requires i < |s.sessions| && s.sessions[i].authenticated && p.payload.Social?
    requires p.payload.action == action && p.payload.name == name && IsFriendAction(action)
    requires DeedOf(s, Request(i, p, hashOk)).NoDeed? && Refines(OpAt(s, i, action, name), s.friends, 0, 0)
    ensures var s' := HandleFriend(s, i, action, name);
            && s'.friends == s.friends
            && exists status :: status != RESP_OK && s'.sent == s.sent + [Sent(s.sessions[i].fd, SocialResponse(action, status))]
  {}
}
