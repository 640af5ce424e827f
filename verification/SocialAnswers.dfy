/** How social requests are answered, and who else hears of them: over the rows and the connections. */
module SocialAnswers {
  import opened Names
  import opened Protocol
  import opened Friends
  import opened FriendRules
  import opened ClientView
  import opened Listing
  import opened Server
  import opened Invariants
  import opened Traffic
  import opened Presence
  import opened PanelView
  import opened Frames
  import opened Delivery
  import opened ServerAnswers

  // ------------------------------------------------------------ friend requests

  /** The request is answered by an error on its own connection, and nothing else happens. */
  ghost predicate Refused(s: State, s': State, fd: int, action: int, status: int) {
    s' == s.(sent := s'.sent) && AnsweredBy(s, s', fd, [Plain(Social(0, action, status, 0, "", ""))])
  }

  /**
   The request is done: the table is changed, the answer OK comes first, and then the users who are told, and
   nobody else, get their friends on the connection they are logged in on.
   */
  ghost predicate Granted(s: State, s': State, fd: int, action: int, t': seq<FriendRow>, told: set<int>) {
    && s' == s.(friends := t', sent := s'.sent)
    && AnswersFirst(s, s', fd, Plain(Social(0, action, RESP_OK, 0, "", "")))
    && (forall k :: 0 <= k < |s.sessions| ==>
          var c := s.sessions[k];
          if c.authenticated && c.id in told then CarriesFriends(Later(s, s', c.fd), t', s.users, c.id) else Later(s, s', c.fd) == [])
    && forall other :: (forall k :: 0 <= k < |s.sessions| ==> s.sessions[k].fd != other) ==> Later(s, s', other) == []
  }

  /** The friend list of a user reaches the connection that the user is logged in on, and no other. */
  lemma FriendsReach(s: State, user: int, k: nat)
    requires Good(s) && user > 0 && k < |s.sessions|
    ensures PacketsFor(NotifyFriends(s, user), s.sessions[k].fd)
            == if s.sessions[k].authenticated && s.sessions[k].id == user then FriendListStream(FriendListing(s.friends, s.users, user)) else []
  {
    var stream := FriendListStream(FriendListing(s.friends, s.users, user));
    FirstMatchIsOnlyMatch(s, user);
    GoodSessions(s);
    PositiveFd(s.sessions, s.users, k);
    hide Good, FriendListing, FriendListStream, PacketsFor, Into;
    var j := FirstWithId(s.sessions, user, 0);
    assert s.sessions[k].Is(user) <==> s.sessions[k].authenticated && s.sessions[k].id == user;
    if j == k {
      PacketsForInto(s.sessions[k].fd, stream);
    } else if j >= 0 {
      assert SessionsDiffer(s.sessions[if k < j then k else j], s.sessions[if k < j then j else k]);
      IntoFd(s.sessions[j].fd, stream);
      PacketsForOthers(Into(s.sessions[j].fd, stream), s.sessions[k].fd);
    } else {
      PacketsForOthers([], s.sessions[k].fd);
    }
  }

  lemma FriendsElsewhere(s: State, user: int, fd: int)
    requires forall k :: 0 <= k < |s.sessions| ==> s.sessions[k].fd != fd
    ensures PacketsFor(NotifyFriends(s, user), fd) == []
  {
    hide FriendListing, FriendListStream, PacketsFor, Into;
    var j := FirstWithId(s.sessions, user, 0);
    if j >= 0 {
      IntoFd(s.sessions[j].fd, FriendListStream(FriendListing(s.friends, s.users, user)));
      PacketsForOthers(Into(s.sessions[j].fd, FriendListStream(FriendListing(s.friends, s.users, user))), fd);
    } else {
      PacketsForOthers([], fd);
    }
  }

  /** The pushes to one user, or to two different ones. */
  function Pushes(s: State, first: Option<int>, second: int): seq<Out> {
    (if first.Some? then NotifyFriends(s, first.value) else []) + NotifyFriends(s, second)
  }

  lemma PushesReach(s: State, first: Option<int>, second: int, k: nat)
    requires Good(s) && second > 0 && (first.Some? ==> first.value > 0 && first.value != second) && k < |s.sessions|
    ensures var c := s.sessions[k];
            PacketsFor(Pushes(s, first, second), c.fd)
            == if c.authenticated && (c.id == second || first == Some(c.id)) then FriendListStream(FriendListing(s.friends, s.users, c.id)) else []
  {
    hide Good, FriendListing, FriendListStream, PacketsFor, NotifyFriends;
    var c := s.sessions[k];
    FriendsReach(s, second, k);
    if first.Some? {
      FriendsReach(s, first.value, k);
      PacketsForAppend(NotifyFriends(s, first.value), NotifyFriends(s, second), c.fd);
    } else {
      assert [] + NotifyFriends(s, second) == NotifyFriends(s, second);
    }
  }

  lemma PushesElsewhere(s: State, first: Option<int>, second: int, fd: int)
    requires forall k :: 0 <= k < |s.sessions| ==> s.sessions[k].fd != fd
    ensures PacketsFor(Pushes(s, first, second), fd) == []
  {
    hide PacketsFor, NotifyFriends;
    FriendsElsewhere(s, second, fd);
    if first.Some? {
      FriendsElsewhere(s, first.value, fd);
      PacketsForAppend(NotifyFriends(s, first.value), NotifyFriends(s, second), fd);
    } else {
      assert [] + NotifyFriends(s, second) == NotifyFriends(s, second);
    }
  }

  /** The answer and the pushes of a request that is done. */
  lemma GrantIs(s: State, s2: State, fd: int, action: int, first: Option<int>, second: int)
    requires Good(s2) && s2 == s.(friends := s2.friends, sent := s.sent + [Sent(fd, SocialResponse(action, RESP_OK))])
    requires second > 0 && (first.Some? ==> first.value > 0 && first.value != second)
    ensures Granted(s, s2.SendAll(Pushes(s2, first, second)), fd, action, s2.friends, if first.Some? then {first.value, second} else {second})
  {
    hide Good, FriendListing, FriendListStream, PacketsFor, Pushes, CarriesFriends;
    var outs := Pushes(s2, first, second);
    var s' := s2.SendAll(outs);
    assert s'.sent[|s.sent| + 1..] == outs;
    forall k | 0 <= k < |s.sessions|
      ensures var c, told := s.sessions[k], if first.Some? then {first.value, second} else {second};
              if c.authenticated && c.id in told then CarriesFriends(Later(s, s', c.fd), s2.friends, s.users, c.id) else Later(s, s', c.fd) == []
    {
      PushesReach(s2, first, second, k);
      FriendsAreCarried(s2, s.sessions[k].id);
    }
    forall other | forall k :: 0 <= k < |s.sessions| ==> s.sessions[k].fd != other ensures Later(s, s', other) == [] {
      PushesElsewhere(s2, first, second, other);
    }
  }

  /** A friend request about a user, as the code has it. */
  lemma FriendSteps(s: State, i: nat, action: int, name: string, other: int)
    requires Good(s) && i < |s.sessions| && s.sessions[i].authenticated && IsFriendAction(action)
    requires NameTaken(s.users, name) && IdOf(s.users, name) == other
    ensures var c, s' := s.sessions[i], HandleFriend(s, i, action, name);
            var (rc, t') := Perform(FriendOp(VerbOf(action), c.id, other, s.Ids()), s.friends);
            if action == SOCIAL_FRIEND_REQUEST && other == c.id then Refused(s, s', c.fd, action, RESP_ERR_INVALID)
            else if rc < 0 then t' == s.friends ==> Refused(s, s', c.fd, action, FriendError(action, rc))
            else Granted(s, s', c.fd, action, t', if rc == 1 then {c.id, other} else {other})
  {
    var c := s.sessions[i];
    KnownIds(s, i, name);
    hide DatabaseOk, SessionsOk, Perform, NotifyFriends, NameTaken, IdOf, Granted, Into, UserIds, IsFriendAction;
    var op := FriendOp(VerbOf(action), c.id, other, s.Ids());
    var (rc, t') := Perform(op, s.friends);
    NewFriendsKeepDatabase(s, op);
    if action == SOCIAL_FRIEND_REQUEST && other == c.id {
      SendIsAnswer(s, HandleFriend(s, i, action, name), c.fd, SocialResponse(action, RESP_ERR_INVALID));
    } else if rc < 0 {
      SendIsAnswer(s, HandleFriend(s, i, action, name), c.fd, SocialResponse(action, FriendError(action, rc)));
    } else {
      var s2 := s.(friends := t').Send(c.fd, SocialResponse(action, RESP_OK));
      DatabaseIsTables(s.(friends := t'), s2);
      NotOneself(op, s.friends);
      var first := if rc == 1 then Some(c.id) else None;
      GrantIs(s, s2, c.fd, action, first, other);
      PushesFromLog(s2, first, other);
    }
  }

  lemma NotOneself(op: FriendOp, t: seq<FriendRow>)
    ensures Perform(op, t).0 == 1 ==> op.who != op.whom
  {}

  lemma KnownIds(s: State, i: nat, name: string)
    requires Good(s) && i < |s.sessions| && s.sessions[i].authenticated && NameTaken(s.users, name)
    ensures s.sessions[i].id > 0 && s.sessions[i].id in s.Ids() && IdOf(s.users, name) > 0 && IdOf(s.users, name) in s.Ids()
  {
    LookupIsExact(s.users, name);
    assert s.sessions[i] in s.sessions;
    UserIdIn(s.users);
  }

  /** The second push does not depend on the first having been sent. */
  lemma PushesFromLog(s2: State, first: Option<int>, second: int)
    ensures var s3 := if first.Some? then s2.SendAll(NotifyFriends(s2, first.value)) else s2;
            s3.SendAll(NotifyFriends(s3, second)) == s2.SendAll(Pushes(s2, first, second))
  {
    hide FriendListing, FriendListStream, Into, FirstWithId;
    if first.Some? {
      var a, b := NotifyFriends(s2, first.value), NotifyFriends(s2, second);
      assert (s2.sent + a) + b == s2.sent + (a + b);
    } else {
      assert [] + NotifyFriends(s2, second) == NotifyFriends(s2, second);
    }
  }

  /** How a friend request about user `b` by user `a` should end, by the rows of the two. */
  ghost predicate FriendRequestIs(s: State, s': State, fd: int, action: int, a: int, b: int) {
    var t, t' := s.friends, s'.friends;
    var asked := FriendRow(b, a, false) in t;
    && (action == SOCIAL_FRIEND_REQUEST ==>
          if a == b then Refused(s, s', fd, action, RESP_ERR_INVALID)
          else if AreFriends(t, a, b) then Refused(s, s', fd, action, RESP_ERR_CONFLICT)
          else if asked then Befriended(t, t', b, a) && Granted(s, s', fd, action, t', {a, b})
          else if FriendRow(a, b, false) in t then Refused(s, s', fd, action, RESP_ERR_DB)
          else t' == t + [FriendRow(a, b, false)] && Granted(s, s', fd, action, t', {b}))
    && (action == SOCIAL_FRIEND_ACCEPT ==>
          if FriendRow(b, a, true) in t then Refused(s, s', fd, action, RESP_ERR_CONFLICT)
          else if asked then Befriended(t, t', b, a) && Granted(s, s', fd, action, t', {b})
          else Refused(s, s', fd, action, RESP_ERR_NOT_FOUND))
    && (action == SOCIAL_FRIEND_REJECT ==>
          if asked then RowGone(t, t', FriendRow(b, a, false)) && Granted(s, s', fd, action, t', {b})
          else Refused(s, s', fd, action, RESP_ERR_NOT_FOUND))
    && (action == SOCIAL_FRIEND_REMOVE ==>
          if AreFriends(t, a, b)
          then (RowGone(t, t', FriendRow(a, b, true)) || RowGone(t, t', FriendRow(b, a, true))) && Granted(s, s', fd, action, t', {b})
          else Refused(s, s', fd, action, RESP_ERR_NOT_FOUND))
  }

  /** What the operation does for the action, over the rows. */
  lemma OperationIs(t: seq<FriendRow>, known: seq<int>, action: int, a: int, b: int)
    requires TableOk(t) && a in known && b in known && IsFriendAction(action)
    ensures var (rc, t') := Perform(FriendOp(VerbOf(action), a, b, known), t);
            && (rc < 0 ==> t' == t)
            && (action == SOCIAL_FRIEND_REQUEST && a != b ==>
                  if AreFriends(t, a, b) then rc == -2
                  else if FriendRow(b, a, false) in t then rc == 1 && Befriended(t, t', b, a)
                  else if FriendRow(a, b, false) in t then rc == -1
                  else rc == 0 && t' == t + [FriendRow(a, b, false)])
            && (action == SOCIAL_FRIEND_ACCEPT ==>
                  if FriendRow(b, a, true) in t then rc == -2
                  else if FriendRow(b, a, false) in t then rc == 0 && Befriended(t, t', b, a) else rc == -1)
            && (action == SOCIAL_FRIEND_REJECT ==>
                  if FriendRow(b, a, false) in t then rc == 0 && RowGone(t, t', FriendRow(b, a, false)) else rc == -1)
            && (action == SOCIAL_FRIEND_REMOVE ==>
                  if AreFriends(t, a, b) then rc == 0 && (RowGone(t, t', FriendRow(a, b, true)) || RowGone(t, t', FriendRow(b, a, true))) else rc == -1)
  {
    PerformIs(t, known, a, b);
    hide Perform, TableOk, AreFriends, Befriended, RowGone;
  }

  /** The code that answers a refused operation. */
  lemma RefusalCodes(action: int)
    requires IsFriendAction(action)
    ensures FriendError(action, -2) == RESP_ERR_CONFLICT
    ensures FriendError(action, -1) == if action == SOCIAL_FRIEND_REQUEST then RESP_ERR_DB else RESP_ERR_NOT_FOUND
  {}

  lemma FriendTable(s: State)
    requires Good(s)
    ensures TableOk(s.friends)
  {}

  lemma FriendRequestFollows(s: State, i: nat, action: int, name: string, other: int)
    requires Good(s) && i < |s.sessions| && s.sessions[i].authenticated && IsFriendAction(action)
    requires NameTaken(s.users, name) && IdOf(s.users, name) == other
    ensures FriendRequestIs(s, HandleFriend(s, i, action, name), s.sessions[i].fd, action, s.sessions[i].id, other)
  {
    var a, t, s' := s.sessions[i].id, s.friends, HandleFriend(s, i, action, name);
    KnownIds(s, i, name);
    FriendTable(s);
    FriendSteps(s, i, action, name, other);
    RefusalCodes(action);
    hide Good, Perform, TableOk, AreFriends, Befriended, RowGone, Granted, Refused, HandleFriend, NameTaken, IdOf, UserIds, FriendError;
    OperationIs(t, s.Ids(), action, a, other);
    GrantedTable(s, s', s.sessions[i].fd, action);
  }

  /** A request that is done leaves the table that its answer is about. */
  lemma GrantedTable(s: State, s': State, fd: int, action: int)
    ensures forall t', told :: Granted(s, s', fd, action, t', told) ==> s'.friends == t'
  {}

  /**
   Every friend request is answered, refused for the reason that the rows give, and done otherwise, with
   exactly its effect on them; the other user is told, and both are if a request meets one from the other side.
   */
  lemma FriendRequestsAreHandled(s: State, i: nat, p: Packet, hashOk: bool, u: UserRow)
    requires Good(s) && i < |s.sessions| && s.sessions[i].authenticated && p.payload.Social? && IsFriendAction(p.payload.action)
    ensures var s', c, q := Step(s, Request(i, p, hashOk)), s.sessions[i], p.payload;
            && ((forall v :: v in s.users ==> v.name != q.name) ==> Refused(s, s', c.fd, q.action, RESP_ERR_NOT_FOUND))
            && (u in s.users && u.name == q.name ==> FriendRequestIs(s, s', c.fd, q.action, c.id, u.id))
  {
    var c, q := s.sessions[i], p.payload;
    hide DatabaseOk, SessionsOk, FriendRequestIs, IsFriendAction, VerbOf, Perform, IdOf;
    if u in s.users && u.name == q.name {
      IdOfUser(s.users, u) by {
        GoodUsers(s);
      }
      FriendRequestFollows(s, i, q.action, q.name, u.id);
    }
    if forall v :: v in s.users ==> v.name != q.name {
      SendIsAnswer(s, HandleFriend(s, i, q.action, q.name), c.fd, SocialResponse(q.action, RESP_ERR_NOT_FOUND));
    }
  }

  // ------------------------------------------------------------ lists, and what is refused

  /** A client that is not logged in is refused everything, and so is a request of no known kind. */
  lemma OthersAreRefused(s: State, i: nat, p: Packet, hashOk: bool)
    requires i < |s.sessions| && p.payload.Social?
    ensures var s', c, q := Step(s, Request(i, p, hashOk)), s.sessions[i], p.payload;
            && (!c.authenticated ==> Refused(s, s', c.fd, q.action, RESP_ERR_UNAUTHORIZED))
            && (c.authenticated && !IsFriendAction(q.action) && !(q.action in [SOCIAL_LIST_FRIENDS, SOCIAL_LIST_USERS, SOCIAL_UPDATE_STATUS]) ==>
                  Refused(s, s', c.fd, q.action, RESP_ERR_INVALID))
  {
    var s', c, q := Step(s, Request(i, p, hashOk)), s.sessions[i], p.payload;
    hide HandleFriend, FriendListing, FriendListStream, UserListStream, UpdateStatus, IsFriendAction, Into;
    if !c.authenticated {
      SendIsAnswer(s, s', c.fd, SocialResponse(q.action, RESP_ERR_UNAUTHORIZED));
    } else if !IsFriendAction(q.action) && !(q.action in [SOCIAL_LIST_FRIENDS, SOCIAL_LIST_USERS, SOCIAL_UPDATE_STATUS]) {
      SendIsAnswer(s, s', c.fd, SocialResponse(q.action, RESP_ERR_INVALID));
    }
  }

  /** Whoever is logged in gets the list of friends or of users asked for, on that connection alone; nothing changes. */
  lemma ListsAreSent(s: State, i: nat, p: Packet, hashOk: bool)
    requires Good(s) && i < |s.sessions| && s.sessions[i].authenticated && p.payload.Social?
    requires p.payload.action == SOCIAL_LIST_FRIENDS || p.payload.action == SOCIAL_LIST_USERS
    ensures var s', c := Step(s, Request(i, p, hashOk)), s.sessions[i];
            && s' == s.(sent := s'.sent)
            && exists ps :: AnsweredBy(s, s', c.fd, ps)
                            && if p.payload.action == SOCIAL_LIST_FRIENDS then CarriesFriends(ps, s.friends, s.users, c.id) else CarriesUsers(ps, s.sessions, s.users)
  {
    ListIsSent(s, i, p, hashOk);
    hide Good, Step, FriendListing, FriendListStream, UserListStream, AnsweredBy, CarriesFriends, CarriesUsers;
    if p.payload.action == SOCIAL_LIST_FRIENDS {
      FriendsAreCarried(s, s.sessions[i].id);
    } else {
      UsersAreCarried(s.sessions, s.users);
    }
  }

  lemma ListIsSent(s: State, i: nat, p: Packet, hashOk: bool)
    requires i < |s.sessions| && s.sessions[i].authenticated && p.payload.Social?
    requires p.payload.action == SOCIAL_LIST_FRIENDS || p.payload.action == SOCIAL_LIST_USERS
    ensures var s', c := Step(s, Request(i, p, hashOk)), s.sessions[i];
            && s' == s.(sent := s'.sent)
            && AnsweredBy(s, s', c.fd, if p.payload.action == SOCIAL_LIST_FRIENDS then FriendListStream(FriendListing(s.friends, s.users, c.id))
                                       else UserListStream(s.sessions, s.users))
  {
    hide HandleFriend, FriendListing, FriendListStream, UserListStream, UpdateStatus, Into;
  }

  // ------------------------------------------------------------ status texts

  /** The row of the user takes the text; every other row is as it was. */
  ghost predicate TakesStatus(users: seq<UserRow>, users': seq<UserRow>, user: int, text: string) {
    |users'| == |users| && forall k :: 0 <= k < |users| ==> users'[k] == if users[k].id == user then users[k].(status := text) else users[k]
  }

  /** The news of a status text: the user is connected, since it was the user who set it. */
  function StatusNews(c: Session, status: int, text: string): Packet {
    Plain(Social(STATUS_ONLINE, SOCIAL_UPDATE_STATUS, status, c.id, Truncated(c.username, NAME_LEN), text))
  }

  /**
   A status text of 1 to 64 bytes is taken: the row of the session's user gets it, and every logged-in
   connection is sent exactly that news, once.  Any other text is refused on its own connection, and nothing changes.
   */
  lemma StatusIsTaken(s: State, i: nat, p: Packet, hashOk: bool)
    requires Good(s) && i < |s.sessions| && s.sessions[i].authenticated && p.payload.Social? && p.payload.action == SOCIAL_UPDATE_STATUS
    ensures var s', c, text := Step(s, Request(i, p, hashOk)), s.sessions[i], p.payload.profile;
            if 1 <= |text| <= 64 then
              && s' == s.(users := s'.users, sent := s'.sent) && TakesStatus(s.users, s'.users, c.id, text)
              && s.sent <= s'.sent
              && (forall k :: 0 <= k < |s.sessions| ==>
                    PacketsFor(News(s.sent, s'.sent), s.sessions[k].fd) == if s.sessions[k].authenticated then [StatusNews(c, RESP_OK, text)] else [])
              && forall fd :: (forall k :: 0 <= k < |s.sessions| ==> s.sessions[k].fd != fd) ==> PacketsFor(News(s.sent, s'.sent), fd) == []
            else s' == s.(sent := s'.sent) && AnsweredBy(s, s', c.fd, [StatusNews(c, RESP_ERR_INVALID, "")])
  {
    var s', c, text := Step(s, Request(i, p, hashOk)), s.sessions[i], p.payload.profile;
    UpdateIs(s, i, p, hashOk);
    hide Good, Step, PacketsFor, ToSessions, StatusNews, WithProfile, AnsweredBy;
    if 1 <= |text| <= 64 {
      ProfileIsTaken(s.users, c.id, text);
      NewsOf(s.sent, ToSessions(s.sessions, StatusNews(c, RESP_OK, text), |s.sessions|));
      forall k | 0 <= k < |s.sessions|
        ensures PacketsFor(News(s.sent, s'.sent), s.sessions[k].fd) == if s.sessions[k].authenticated then [StatusNews(c, RESP_OK, text)] else []
      {
        NewsReach(s, StatusNews(c, RESP_OK, text), k);
      }
      forall fd | forall k :: 0 <= k < |s.sessions| ==> s.sessions[k].fd != fd ensures PacketsFor(News(s.sent, s'.sent), fd) == [] {
        NewsElsewhere(s, StatusNews(c, RESP_OK, text), fd);
      }
    }
  }

  lemma UpdateStep(s: State, i: nat, p: Packet, hashOk: bool)
    requires i < |s.sessions| && s.sessions[i].authenticated && p.payload.Social? && p.payload.action == SOCIAL_UPDATE_STATUS
    ensures Step(s, Request(i, p, hashOk)) == UpdateStatus(s, i, p.payload.profile)
  {
    hide UpdateStatus, HandleFriend, FriendListing, UserListStream;
  }

  /** `UpdateStatus` as the request leads to it. */
  lemma UpdateIs(s: State, i: nat, p: Packet, hashOk: bool)
    requires Good(s) && i < |s.sessions| && s.sessions[i].authenticated && p.payload.Social? && p.payload.action == SOCIAL_UPDATE_STATUS
    ensures var s', c, text := Step(s, Request(i, p, hashOk)), s.sessions[i], p.payload.profile;
            if 1 <= |text| <= 64
            then s' == s.(users := WithProfile(s.users, c.id, text), sent := s.sent + ToSessions(s.sessions, StatusNews(c, RESP_OK, text), |s.sessions|))
            else s' == s.(sent := s'.sent) && AnsweredBy(s, s', c.fd, [StatusNews(c, RESP_ERR_INVALID, "")])
  {
    var s', c, text := Step(s, Request(i, p, hashOk)), s.sessions[i], p.payload.profile;
    UpdateStep(s, i, p, hashOk);
    KnownActor(s, i);
    SelfOnline(s, i);
    hide Good, Step, Online, ToSessions, UserIds, WithProfile;
    if 1 <= |text| <= 64 {
      assert StatusPacket(RESP_OK, c.id, c.username, text, Online(s.sessions, c.id)) == StatusNews(c, RESP_OK, text);
    } else {
      SendIsAnswer(s, s', c.fd, StatusNews(c, RESP_ERR_INVALID, ""));
    }
  }

  lemma ProfileIsTaken(users: seq<UserRow>, user: int, text: string)
    ensures TakesStatus(users, WithProfile(users, user, text), user, text)
  {}

  lemma NewsReach(s: State, news: Packet, k: nat)
    requires Good(s) && k < |s.sessions|
    ensures PacketsFor(ToSessions(s.sessions, news, |s.sessions|), s.sessions[k].fd) == if s.sessions[k].authenticated then [news] else []
  {
    GoodSessions(s);
    hide Good, SessionsOk, PacketsFor, ToSessions, FanOut;
    StatusFansOut(s.sessions, news, |s.sessions|);
    PositiveFd(s.sessions, s.users, k);
    FanOutReaches(s.sessions, s.users, (c: Session) => Given(c.fd > 0 && c.authenticated, news), |s.sessions|, k);
  }

  lemma NewsElsewhere(s: State, news: Packet, fd: int)
    requires forall k :: 0 <= k < |s.sessions| ==> s.sessions[k].fd != fd
    ensures PacketsFor(ToSessions(s.sessions, news, |s.sessions|), fd) == []
  {
    hide PacketsFor, ToSessions, FanOut;
    StatusFansOut(s.sessions, news, |s.sessions|);
    FanOutElsewhere(s.sessions, (c: Session) => Given(c.fd > 0 && c.authenticated, news), |s.sessions|, fd);
  }

  lemma SelfOnline(s: State, i: nat)
    requires Good(s) && i < |s.sessions| && s.sessions[i].authenticated
    ensures Online(s.sessions, s.sessions[i].id)
  {
    assert s.sessions[i] in s.sessions;
    assert s.sessions[i].Is(s.sessions[i].id);
  }

  /** So every logged-in client that has the user in its list shows the text with it. */
  lemma StatusIsShown(s: State, i: nat, p: Packet, hashOk: bool, k: nat, x: UiUser)
    requires Good(s) && PresenceOk(s) && i < |s.sessions| && s.sessions[i].authenticated
    requires p.payload.Social? && p.payload.action == SOCIAL_UPDATE_STATUS && 1 <= |p.payload.profile| <= 64
    requires k < |s.sessions| && s.sessions[k].authenticated
    requires x in ViewOf(Step(s, Request(i, p, hashOk)).sent, s.sessions[k].fd).users && x.id == s.sessions[i].id
    ensures x.profile == p.payload.profile && x.online == 1
  {
    var s', c := Step(s, Request(i, p, hashOk)), s.sessions[i];
    StepKeepsPresence(s, Request(i, p, hashOk));
    UpdateIs(s, i, p, hashOk);
    SelfOnline(s, i);
    hide Good, PresenceOk, Step, ViewOf, Online, ToSessions, Truth, WithProfile;
    ShownIsTrue(s', k, x);
    TextIsTrue(s.sessions, s.users, c.id, p.payload.profile, x);
  }

  lemma TextIsTrue(sessions: seq<Session>, users: seq<UserRow>, user: int, text: string, x: UiUser)
    requires x in Truth(sessions, WithProfile(users, user, text)) && x.id == user && Online(sessions, user) && |text| <= STATUS_LEN
    ensures x.profile == text && x.online == 1
  {
    hide Online, Truth, WithProfile, UiUserOf;
    var users' := WithProfile(users, user, text);
    ProfileIsTaken(users, user, text);
    TrueEntry(sessions, users', x);
    var u :| u in users' && x == UiUserOf(sessions, u);
    EntryIsOfRow(sessions, u);
    var n :| 0 <= n < |users'| && users'[n] == u;
  }

  lemma EntryIsOfRow(sessions: seq<Session>, u: UserRow)
    ensures var x := UiUserOf(sessions, u);
            x.id == u.id && x.profile == Truncated(u.status, STATUS_LEN) && (x.online == 1 <==> Online(sessions, u.id))
  {
    hide Online;
  }

  lemma ShownIsTrue(s: State, k: nat, x: UiUser)
    requires PresenceOk(s) && k < |s.sessions| && s.sessions[k].authenticated && x in ViewOf(s.sent, s.sessions[k].fd).users
    ensures x in Truth(s.sessions, s.users)
  {
    hide ViewOf, Truth, Sorted;
    assert s.sessions[k] in s.sessions;
    assert x in multiset(ViewOf(s.sent, s.sessions[k].fd).users);
  }

  lemma TrueEntry(sessions: seq<Session>, users: seq<UserRow>, x: UiUser)
    requires x in Truth(sessions, users)
    ensures exists u :: u in users && x == UiUserOf(sessions, u)
  {
    SortByPermutes((u: UserRow) => u.name, users);
    var rows := ByName(users);
    var all := Map((u: UserRow) => UiUserOf(sessions, u), rows);
    hide SortBy, UiUserOf;
    var k :| 0 <= k < |Truth(sessions, users)| && Truth(sessions, users)[k] == x;
    assert all[k] == x && rows[k] in multiset(users);
  }
}
