/** What registrations, logins, logouts and lost connections leave, and what every connection hears of them. */
module AccountAnswers {
  import opened Names
  import opened Protocol
  import opened Friends
  import Store
  import opened Rules
  import opened Listing
  import opened Server
  import opened Invariants
  import opened Traffic
  import opened FriendView
  import opened Accounts
  import opened PanelView
  import opened Lifecycle
  import opened Frames
  import opened Delivery
  import opened ServerAnswers

  // ------------------------------------------------------------ what is heard

  /** Everything that an event puts on one socket. */
  function HeardOn(s: State, s': State, fd: int): seq<Packet> {
    PacketsFor(News(s.sent, s'.sent), fd)
  }

  /**
   The news of a user: a logged-in client first gets the member list of the server it looks at, if the user is
   a member of it, and then the list of all users; any other client gets nothing.
   */
  ghost predicate IsNews(ps: seq<Packet>, s: State, c: Session, user: int) {
    exists members: seq<Packet>, people: seq<Packet> ::
      && ps == members + people
      && (if LooksAtServerOf(c, s.tables, user) then CarriesMembers(members, s, c.currentServer) else members == [])
      && (if c.authenticated then CarriesUsers(people, s.sessions, s.users) else people == [])
  }

  lemma NewsChain(a: seq<Out>, b: seq<Out>, c: seq<Out>, fd: int)
    requires a <= b <= c
    ensures PacketsFor(News(a, c), fd) == PacketsFor(News(a, b), fd) + PacketsFor(News(b, c), fd)
  {
    hide PacketsFor;
    assert News(a, c) == News(a, b) + News(b, c);
    PacketsForAppend(News(a, b), News(b, c), fd);
  }

  lemma NewsOfOne(a: seq<Out>, o: Out, fd: int)
    requires o.Sent?
    ensures PacketsFor(News(a, a + [o]), fd) == if o.fd == fd then [o.packet] else []
  {
    NewsOf(a, [o]);
    assert [o][..0] == [];
  }

  /** Some entries of the log and then one more. */
  lemma ThenOne(a: seq<Out>, outs: seq<Out>, o: Out, fd: int)
    requires o.Sent?
    ensures PacketsFor(News(a, (a + outs) + [o]), fd) == PacketsFor(outs, fd) + if o.fd == fd then [o.packet] else []
  {
    hide PacketsFor, News;
    NewsChain(a, a + outs, (a + outs) + [o], fd);
    NewsOf(a, outs);
    NewsOfOne(a + outs, o, fd);
  }

  lemma MakesNews(members: seq<Packet>, people: seq<Packet>, s: State, c: Session, user: int)
    requires if LooksAtServerOf(c, s.tables, user) then CarriesMembers(members, s, c.currentServer) else members == []
    requires if c.authenticated then CarriesUsers(people, s.sessions, s.users) else people == []
    ensures IsNews(members + people, s, c, user)
  {
    hide LooksAtServerOf, CarriesMembers, CarriesUsers;
  }

  /** An announcement in a good state is the news of its user. */
  lemma AnnouncementIsNews(s: State, user: int, k: nat)
    requires Good(s) && k < |s.sessions|
    ensures IsNews(HeardOn(s, Announce(s, user), s.sessions[k].fd), s, s.sessions[k], user)
  {
    var c := s.sessions[k];
    GoodSessions(s);
    GoodChannels(s);
    hide Good, SessionsOk, Store.TablesOk, PacketsFor, News, Announce, CarriesMembers, CarriesUsers, MemberStream, UserListStream, LooksAtServerOf, IsNews;
    AnnouncementReaches(s, user, k);
    MembersAreCarried(s, c.currentServer);
    UsersAreCarried(s.sessions, s.users);
    MakesNews(if LooksAtServerOf(c, s.tables, user) then MemberStream(s, c.currentServer) else [],
              if c.authenticated then UserListStream(s.sessions, s.users) else [], s, c, user);
  }

  lemma AnnouncementElsewhere(s: State, user: int, fd: int)
    requires forall k :: 0 <= k < |s.sessions| ==> s.sessions[k].fd != fd
    ensures HeardOn(s, Announce(s, user), fd) == []
  {
    hide PacketsFor, News, NotifyJoined, NotifyUsers, JoinedServers, UserListStream;
    var joined := JoinedServers(s.tables, user);
    var a, b := NotifyJoined(s, joined, |joined|), NotifyUsers(s.sessions, s.users, |s.sessions|);
    JoinedElsewhere(s, joined, |joined|, fd);
    UsersFanOut(s.sessions, s.users, |s.sessions|);
    FanOutElsewhere(s.sessions, (c: Session) => Streamed(c.fd > 0 && c.authenticated, UserListStream(s.sessions, s.users)), |s.sessions|, fd);
    PacketsForAppend(a, b, fd);
    assert (s.sent + a) + b == s.sent + (a + b);
    NewsOf(s.sent, a + b);
  }

  lemma {:induction false} JoinedElsewhere(s: State, servers: seq<Item>, n: nat, fd: int)
    requires n <= |servers| && forall k :: 0 <= k < |s.sessions| ==> s.sessions[k].fd != fd
    ensures PacketsFor(NotifyJoined(s, servers, n), fd) == []
  {
    hide PacketsFor, MemberStream, NotifyMembers;
    if n == 0 {
      PacketsForOthers([], fd);
    } else {
      var server := servers[n - 1].id;
      JoinedElsewhere(s, servers, n - 1, fd);
      MembersFanOut(s, server, |s.sessions|);
      FanOutElsewhere(s.sessions, (c: Session) => Streamed(c.fd > 0 && c.authenticated && c.currentServer == server, MemberStream(s, server)), |s.sessions|, fd);
      PacketsForAppend(NotifyJoined(s, servers, n - 1), NotifyMembers(s, server, |s.sessions|), fd);
    }
  }

  lemma AnnounceGrows(s: State, user: int)
    ensures s.sent <= Announce(s, user).sent && Announce(s, user) == s.(sent := Announce(s, user).sent)
  {
    AnnounceOuts(s, user);
    hide Announce;
  }

  // ------------------------------------------------------------ refusals

  /** One answer on the own connection, and nothing else. */
  ghost predicate Answered(s: State, s': State, fd: int, action: int, status: int) {
    s' == s.(sent := s'.sent) && AnsweredBy(s, s', fd, [Plain(Auth(action, status, "", ""))])
  }

  /** What is refused, and with which status. */
  lemma RefusedAccounts(s: State, i: nat, p: Packet, hashOk: bool)
    requires i < |s.sessions| && p.payload.Auth?
    ensures var s', c, q := Step(s, Request(i, p, hashOk)), s.sessions[i], p.payload;
            var taken := exists u :: u in s.users && u.name == q.username;
            && (q.action == AUTH_REGISTER && !hashOk ==> Answered(s, s', c.fd, AUTH_REGISTER, 1))
            && (q.action == AUTH_REGISTER && hashOk && taken ==> Answered(s, s', c.fd, AUTH_REGISTER, RESP_ERR_CONFLICT))
            && (q.action == AUTH_LOGIN && !taken ==> Answered(s, s', c.fd, AUTH_LOGIN, 1))
            && (q.action == AUTH_LOGIN && taken && !hashOk ==> Answered(s, s', c.fd, AUTH_LOGIN, RESP_ERR_INVALID))
            && (q.action == AUTH_LOGOUT && !c.authenticated ==> Answered(s, s', c.fd, AUTH_LOGOUT, RESP_ERR_UNAUTHORIZED))
            && (!(q.action in [AUTH_LOGIN, AUTH_REGISTER, AUTH_LOGOUT]) ==> s' == s)
  {
    var s', c, q := Step(s, Request(i, p, hashOk)), s.sessions[i], p.payload;
    RefusedIs(s, i, q.username, hashOk);
    hide Register, Login, Logout, Answered;
  }

  lemma RefusedIs(s: State, i: nat, name: string, hashOk: bool)
    requires i < |s.sessions|
    ensures !hashOk ==> Answered(s, Register(s, i, name, hashOk), s.sessions[i].fd, AUTH_REGISTER, 1)
    ensures hashOk && NameTaken(s.users, name) ==> Answered(s, Register(s, i, name, hashOk), s.sessions[i].fd, AUTH_REGISTER, RESP_ERR_CONFLICT)
    ensures !NameTaken(s.users, name) ==> Answered(s, Login(s, i, name, hashOk), s.sessions[i].fd, AUTH_LOGIN, 1)
    ensures NameTaken(s.users, name) && !hashOk ==> Answered(s, Login(s, i, name, hashOk), s.sessions[i].fd, AUTH_LOGIN, RESP_ERR_INVALID)
    ensures !s.sessions[i].authenticated ==> Answered(s, Logout(s, i), s.sessions[i].fd, AUTH_LOGOUT, RESP_ERR_UNAUTHORIZED)
  {
    hide NameTaken, NotifyUsers, Announce, RevokeOuts, IdOf;
    var fd := s.sessions[i].fd;
    ErrorIsAnswer(s, fd, AuthReply(AUTH_REGISTER, 1, ""));
    ErrorIsAnswer(s, fd, AuthReply(AUTH_REGISTER, RESP_ERR_CONFLICT, ""));
    ErrorIsAnswer(s, fd, AuthReply(AUTH_LOGIN, 1, ""));
    ErrorIsAnswer(s, fd, AuthReply(AUTH_LOGIN, RESP_ERR_INVALID, ""));
    ErrorIsAnswer(s, fd, AuthReply(AUTH_LOGOUT, RESP_ERR_UNAUTHORIZED, ""));
    hide Into;
  }

  // ------------------------------------------------------------ registration

  /** The record of a connection that a user has logged in on. */
  function SignedIn(c: Session, user: int, name: string): Session {
    Session(user, c.fd, true, Truncated(name, NAME_LEN), c.currentServer)
  }

  /** The record of a connection that nobody is logged in on. */
  function SignedOut(c: Session): Session {
    Session(0, c.fd, false, "", -1)
  }

  /** First the list of all users, and then one answer. */
  ghost predicate EndsWith(ps: seq<Packet>, s: State, answer: Packet) {
    exists people: seq<Packet> :: CarriesUsers(people, s.sessions, s.users) && ps == people + [answer]
  }

  /** A new user, logged in on that connection. */
  ghost predicate SignsIn(s: State, s': State, i: nat, name: string)
    requires i < |s.sessions|
  {
    exists id :: IsNewId(s.Ids(), id) && s'.users == s.users + [UserRow(id, name, "")] && s'.sessions == s.sessions[i := SignedIn(s.sessions[i], id, name)]
  }

  /**
   A registration under a free name makes one new user, logged in on that connection; everybody who is logged
   in then, the new user included, gets the new list of users, and the new user the answer OK after it.
   */
  lemma RegistrationIsHandled(s: State, i: nat, p: Packet, k: nat)
    requires Good(s) && i < |s.sessions| && p.payload.Auth? && p.payload.action == AUTH_REGISTER && k < |s.sessions|
    requires forall u :: u in s.users ==> u.name != p.payload.username
    ensures var s', ps := Step(s, Request(i, p, true)), HeardOn(s, Step(s, Request(i, p, true)), s.sessions[k].fd);
            && s' == s.(users := s'.users, sessions := s'.sessions, sent := s'.sent) && s.sent <= s'.sent && SignsIn(s, s', i, p.payload.username)
            && if k == i then EndsWith(ps, s', Plain(Auth(AUTH_REGISTER, RESP_OK, "", "")))
               else if s.sessions[k].authenticated then CarriesUsers(ps, s'.sessions, s'.users) else ps == []
  {
    var s' := Register(s, i, p.payload.username, true);
    AuthSteps(s, i, p, true);
    hide Good, Step, UserListStream, CarriesUsers, HeardOn, SignsIn, Register;
    NewUserSignsIn(s, i, p.payload.username);
    RegistrationIsHeard(s, i, p.payload.username, k);
    UsersAreCarried(s'.sessions, s'.users);
    assert AuthReply(AUTH_REGISTER, RESP_OK, "") == Plain(Auth(AUTH_REGISTER, RESP_OK, "", ""));
  }

  /** `handle_auth_packet` */
  lemma AuthSteps(s: State, i: nat, p: Packet, hashOk: bool)
    requires i < |s.sessions| && p.payload.Auth?
    ensures var s', q := Step(s, Request(i, p, hashOk)), p.payload;
            && (q.action == AUTH_REGISTER ==> s' == Register(s, i, q.username, hashOk))
            && (q.action == AUTH_LOGIN ==> s' == Login(s, i, q.username, hashOk))
            && (q.action == AUTH_LOGOUT ==> s' == Logout(s, i))
  {
    hide Register, Login, Logout;
  }

  lemma NewUserSignsIn(s: State, i: nat, name: string)
    requires i < |s.sessions| && !NameTaken(s.users, name)
    ensures var s' := Register(s, i, name, true);
            s' == s.(users := s'.users, sessions := s'.sessions, sent := s'.sent) && s.sent <= s'.sent && SignsIn(s, s', i, name)
  {
    IsNew(s.Ids());
    RegistrationIs(s, i, name);
    hide NextId, IsNewId, UserIds, NotifyUsers, Register;
  }

  /** `register_account` when it succeeds. */
  lemma RegistrationIs(s: State, i: nat, name: string)
    requires i < |s.sessions| && !NameTaken(s.users, name)
    ensures var s', c, id := Register(s, i, name, true), s.sessions[i], NextId(s.Ids());
            && s' == s.(users := s.users + [UserRow(id, name, "")], sessions := s.sessions[i := SignedIn(c, id, name)], sent := s'.sent)
            && s'.sent == (s.sent + NotifyUsers(s'.sessions, s'.users, |s'.sessions|)) + [Sent(c.fd, AuthReply(AUTH_REGISTER, RESP_OK, ""))]
  {
    hide NotifyUsers, NextId, UserIds, NameTaken;
  }

  lemma RegisteredIsGood(s: State, i: nat, name: string)
    requires Good(s) && i < |s.sessions| && !NameTaken(s.users, name)
    ensures var s' := Register(s, i, name, true);
            && Good(s') && |s'.sessions| == |s.sessions|
            && forall k :: 0 <= k < |s.sessions| ==> s'.sessions[k].fd == s.sessions[k].fd && (k != i ==> s'.sessions[k] == s.sessions[k])
    ensures Register(s, i, name, true).sessions[i].authenticated
    ensures forall k :: 0 <= k < |s.sessions| && k != i ==> s.sessions[k].fd != s.sessions[i].fd
  {
    RegistrationIs(s, i, name);
    RegisterKeepsGood(s, i, name, true);
    GoodSessions(s);
    FdsApart(s, i);
    hide Good, NextId, NotifyUsers, SessionsOk, UserIds, Register, AuthReply, NameTaken;
  }

  lemma RegistrationIsHeard(s: State, i: nat, name: string, k: nat)
    requires Good(s) && i < |s.sessions| && !NameTaken(s.users, name) && k < |s.sessions|
    ensures var s' := Register(s, i, name, true);
            var stream := UserListStream(s'.sessions, s'.users);
            HeardOn(s, s', s.sessions[k].fd)
            == if k == i then stream + [AuthReply(AUTH_REGISTER, RESP_OK, "")] else if s.sessions[k].authenticated then stream else []
  {
    var s', c, fd := Register(s, i, name, true), s.sessions[i], s.sessions[k].fd;
    RegistrationIs(s, i, name);
    RegisteredIsGood(s, i, name);
    GoodSessions(s');
    hide Good, NextId, UserListStream, PacketsFor, News, NotifyUsers, SessionsOk, UserIds, Register, AuthReply, NameTaken, SignedIn;
    var outs := NotifyUsers(s'.sessions, s'.users, |s'.sessions|);
    UsersReach(s', k);
    ThenOne(s.sent, outs, Sent(c.fd, AuthReply(AUTH_REGISTER, RESP_OK, "")), fd);
    assert PacketsFor(outs, fd) + [] == PacketsFor(outs, fd);
  }

  lemma FdsApart(s: State, i: nat)
    requires SessionsOk(s.sessions, s.users) && i < |s.sessions|
    ensures forall k :: 0 <= k < |s.sessions| && k != i ==> s.sessions[k].fd != s.sessions[i].fd
  {
    forall k | 0 <= k < |s.sessions| && k != i ensures s.sessions[k].fd != s.sessions[i].fd {
      assert SessionsDiffer(s.sessions[if k < i then k else i], s.sessions[if k < i then i else k]);
    }
  }

  // ------------------------------------------------------------ login

  /** The sessions after a login: its connection carries the user, and no other connection does any more. */
  ghost predicate TakesOver(before: seq<Session>, after: seq<Session>, i: nat, user: int, name: string)
    requires i < |before|
  {
    && |after| == |before|
    && forall k :: 0 <= k < |before| ==>
         after[k] == if k == i then SignedIn(before[i], user, name)
                     else if before[k].authenticated && before[k].id == user then SignedOut(before[k])
                     else before[k]
  }

  /** Some packets, then the news of a user, then some more. */
  ghost predicate Hears(ps: seq<Packet>, first: seq<Packet>, s: State, c: Session, user: int, last: seq<Packet>) {
    exists news: seq<Packet> :: IsNews(news, s, c, user) && ps == (first + news) + last
  }

  /** `login_account` when it succeeds. */
  lemma LoginIs(s: State, i: nat, name: string)
    requires i < |s.sessions| && NameTaken(s.users, name)
    ensures var s', c, user := Login(s, i, name, true), s.sessions[i], IdOf(s.users, name);
            var farewells := RevokeOuts(s.sessions, c.fd, user, name, |s.sessions|);
            var s2 := s.(sessions := s'.sessions, sent := s.sent + farewells);
            && s' == s.(sessions := s'.sessions, sent := s'.sent)
            && s'.sent == Announce(s2, user).sent + [Sent(c.fd, AuthReply(AUTH_LOGIN, RESP_OK, ""))]
            && var r := Revoked(s.sessions, c.fd, user);
            s'.sessions == r[i := r[i].LoggedIn(user, name)]
  {
    hide NameTaken, IdOf, RevokeOuts, AuthReply;
    var c, user := s.sessions[i], IdOf(s.users, name);
    var r := Revoked(s.sessions, c.fd, user);
    var s2 := s.(sessions := r[i := r[i].LoggedIn(user, name)], sent := s.sent + RevokeOuts(s.sessions, c.fd, user, name, |s.sessions|));
    AnnounceGrows(s2, user);
    hide Announce;
  }

  lemma LoginSessionsAre(s: State, i: nat, user: int, name: string)
    requires Good(s) && i < |s.sessions|
    ensures var r := Revoked(s.sessions, s.sessions[i].fd, user);
            TakesOver(s.sessions, r[i := r[i].LoggedIn(user, name)], i, user, name)
  {
    GoodSessions(s);
    FdsApart(s, i);
    forall k | 0 <= k < |s.sessions| ensures s.sessions[k].fd > 0 {
      PositiveFd(s.sessions, s.users, k);
    }
    hide Good, SessionsOk;
  }

  /** The farewell of a login elsewhere. */
  function Farewell(name: string): Packet {
    Plain(Auth(AUTH_LOGOUT, RESP_OK, Truncated(name, NAME_LEN), ""))
  }

  lemma FarewellsReach(s: State, i: nat, user: int, name: string, k: nat)
    requires Good(s) && i < |s.sessions| && k < |s.sessions|
    ensures PacketsFor(RevokeOuts(s.sessions, s.sessions[i].fd, user, name, |s.sessions|), s.sessions[k].fd)
            == if k != i && s.sessions[k].authenticated && s.sessions[k].id == user then [Farewell(name)] else []
  {
    GoodSessions(s);
    FdsApart(s, i);
    PositiveFd(s.sessions, s.users, k);
    hide Good, SessionsOk, PacketsFor, RevokeOuts, FanOut;
    var fd := s.sessions[i].fd;
    FarewellsFanOut(s.sessions, fd, user, name, |s.sessions|);
    FanOutReaches(s.sessions, s.users,
                  (c: Session) => Given(c.fd > 0 && c.fd != fd && c.authenticated && c.id == user, AuthReply(AUTH_LOGOUT, RESP_OK, name)), |s.sessions|, k);
  }

  /** The state just before the announcement of a login. */
  function BeforeNews(s: State, i: nat, name: string): State
    requires i < |s.sessions|
  {
    var user := IdOf(s.users, name);
    s.(sessions := Login(s, i, name, true).sessions, sent := s.sent + RevokeOuts(s.sessions, s.sessions[i].fd, user, name, |s.sessions|))
  }

  lemma BeforeNewsIsGood(s: State, i: nat, name: string)
    requires Good(s) && i < |s.sessions| && NameTaken(s.users, name)
    ensures var s', s2 := Login(s, i, name, true), BeforeNews(s, i, name);
            && Good(s2) && s2 == s'.(sent := s2.sent) && |s'.sessions| == |s.sessions|
            && forall k :: 0 <= k < |s.sessions| ==> s'.sessions[k].fd == s.sessions[k].fd
  {
    LoginIs(s, i, name);
    LoginSessionsAre(s, i, IdOf(s.users, name), name);
    LoginKeepsGood(s, i, name, true);
    hide Good, Login, NameTaken, IdOf, RevokeOuts, Revoked, Announce, Session.LoggedIn;
    SameButLog(Login(s, i, name, true), BeforeNews(s, i, name));
  }

  lemma LoginNews(s: State, i: nat, name: string, k: nat)
    requires Good(s) && i < |s.sessions| && NameTaken(s.users, name) && k < |s.sessions|
    ensures var s', s2, user := Login(s, i, name, true), BeforeNews(s, i, name), IdOf(s.users, name);
            && |s'.sessions| == |s.sessions| && s'.sessions[k].fd == s.sessions[k].fd
            && IsNews(HeardOn(s2, Announce(s2, user), s.sessions[k].fd), s', s'.sessions[k], user)
  {
    var s', s2, user := Login(s, i, name, true), BeforeNews(s, i, name), IdOf(s.users, name);
    BeforeNewsIsGood(s, i, name);
    hide Good, Login, NameTaken, IdOf, HeardOn, Announce, IsNews, BeforeNews;
    AnnouncementIsNews(s2, user, k);
    NewsIsOfTables(HeardOn(s2, Announce(s2, user), s.sessions[k].fd), s2, s', s'.sessions[k], user);
  }

  lemma LoginLog(s: State, i: nat, name: string, k: nat)
    requires Good(s) && i < |s.sessions| && NameTaken(s.users, name) && k < |s.sessions|
    ensures var s', s2, c, user := Login(s, i, name, true), BeforeNews(s, i, name), s.sessions[k], IdOf(s.users, name);
            HeardOn(s, s', c.fd)
            == ((if k != i && c.authenticated && c.id == user then [Farewell(name)] else []) + HeardOn(s2, Announce(s2, user), c.fd))
               + if k == i then [AuthReply(AUTH_LOGIN, RESP_OK, "")] else []
  {
    var s', s2, fd, user := Login(s, i, name, true), BeforeNews(s, i, name), s.sessions[k].fd, IdOf(s.users, name);
    LoginIs(s, i, name);
    FarewellsReach(s, i, user, name, k);
    GoodSessions(s);
    FdsApart(s, i);
    hide Good, SessionsOk, Login, NameTaken, IdOf, PacketsFor, News, RevokeOuts, Revoked, AuthReply, Announce, Session.LoggedIn, Farewell;
    AnnounceGrows(s2, user);
    LogInThree(s.sent, RevokeOuts(s.sessions, s.sessions[i].fd, user, name, |s.sessions|), Announce(s2, user).sent,
               Sent(s.sessions[i].fd, AuthReply(AUTH_LOGIN, RESP_OK, "")), fd);
  }

  /** What a connection hears of a login: the farewell if it was taken over, the news, and the answer if it was its own. */
  lemma LoginIsHeard(s: State, i: nat, name: string, k: nat)
    requires Good(s) && i < |s.sessions| && NameTaken(s.users, name) && k < |s.sessions|
    ensures var s', c, user := Login(s, i, name, true), s.sessions[k], IdOf(s.users, name);
            && |s'.sessions| == |s.sessions|
            && Hears(HeardOn(s, s', c.fd), if k != i && c.authenticated && c.id == user then [Farewell(name)] else [], s', s'.sessions[k], user,
                     if k == i then [Plain(Auth(AUTH_LOGIN, RESP_OK, "", ""))] else [])
  {
    LoginNews(s, i, name, k);
    LoginLog(s, i, name, k);
    assert AuthReply(AUTH_LOGIN, RESP_OK, "") == Plain(Auth(AUTH_LOGIN, RESP_OK, "", ""));
    hide Good, Login, NameTaken, IdOf, HeardOn, Announce, IsNews, BeforeNews, Farewell, AuthReply;
  }

  /**
   A login under a known name with the right password: its connection carries the user, every other one that
   did is signed out and told so, everybody who is then logged in gets the news of the user, and the
   connection that logged in gets the answer OK after it.  Nothing else changes.
   */
  lemma LoginIsHandled(s: State, i: nat, p: Packet, u: UserRow, k: nat)
    requires Good(s) && i < |s.sessions| && p.payload.Auth? && p.payload.action == AUTH_LOGIN && k < |s.sessions|
    requires u in s.users && u.name == p.payload.username
    ensures var s', c := Step(s, Request(i, p, true)), s.sessions[k];
            && s' == s.(sessions := s'.sessions, sent := s'.sent) && TakesOver(s.sessions, s'.sessions, i, u.id, u.name)
            && Hears(HeardOn(s, s', c.fd), if k != i && c.authenticated && c.id == u.id then [Farewell(u.name)] else [], s', s'.sessions[k], u.id,
                     if k == i then [Plain(Auth(AUTH_LOGIN, RESP_OK, "", ""))] else [])
  {
    AuthSteps(s, i, p, true);
    GoodUsers(s);
    IdOfUser(s.users, u);
    LoginIs(s, i, u.name);
    LoginSessionsAre(s, i, u.id, u.name);
    LoginIsHeard(s, i, u.name, k);
    hide Good, Step, Login, IdOf, HeardOn, Hears, TakesOver, Farewell, Announce, RevokeOuts, Revoked, UsersOk;
  }

  lemma SameButLog(s: State, s2: State)
    requires Good(s) && s2 == s.(sent := s2.sent)
    ensures Good(s2)
  {
    LogIsIrrelevant(s, s2.sent);
  }

  lemma NewsIsOfTables(ps: seq<Packet>, s: State, s': State, c: Session, user: int)
    requires IsNews(ps, s, c, user) && s' == s.(sent := s'.sent)
    ensures IsNews(ps, s', c, user)
  {
    hide LooksAtServerOf, HasRow, HasItem, CarriesItems, CarriesUsers;
    var members: seq<Packet>, people: seq<Packet> :|
      && ps == members + people
      && (if LooksAtServerOf(c, s.tables, user) then CarriesMembers(members, s, c.currentServer) else members == [])
      && (if c.authenticated then CarriesUsers(people, s.sessions, s.users) else people == []);
    if LooksAtServerOf(c, s.tables, user) {
      SameCarried(members, s, s', c.currentServer);
    }
    hide CarriesMembers;
    MakesNews(members, people, s', c, user);
  }

  /** A log that grows in three steps, the last of them one entry. */
  lemma LogInThree(a: seq<Out>, outs: seq<Out>, b: seq<Out>, o: Out, fd: int)
    requires a + outs <= b && o.Sent?
    ensures PacketsFor(News(a, b + [o]), fd) == (PacketsFor(outs, fd) + PacketsFor(News(a + outs, b), fd)) + if o.fd == fd then [o.packet] else []
  {
    hide PacketsFor, News;
    NewsChain(a, a + outs, b, fd);
    NewsChain(a, b, b + [o], fd);
    NewsOf(a, outs);
    NewsOfOne(b, o, fd);
  }

  // ------------------------------------------------------------ logout, and connections that go and come

  lemma OneMoreAnswer(s: State, s1: State, dest: int, p: Packet, fd: int)
    requires s.sent <= s1.sent
    ensures HeardOn(s, s1.Send(dest, p), fd) == HeardOn(s, s1, fd) + if fd == dest then [p] else []
  {
    NewsChain(s.sent, s1.sent, s1.sent + [Sent(dest, p)], fd);
    NewsOfOne(s1.sent, Sent(dest, p), fd);
    hide PacketsFor, News;
  }

  /** An announcement heard from a state with the same log: the news alone. */
  lemma OnlyNews(s: State, s1: State, user: int, k: nat)
    requires Good(s1) && s1.sent == s.sent && k < |s1.sessions|
    ensures var s' := Announce(s1, user);
            s' == s1.(sent := s'.sent) && s.sent <= s'.sent && IsNews(HeardOn(s, s', s1.sessions[k].fd), s', s'.sessions[k], user)
  {
    hide Good, Announce, HeardOn, IsNews;
    var s', fd := Announce(s1, user), s1.sessions[k].fd;
    AnnounceGrows(s1, user);
    AnnouncementIsNews(s1, user, k);
    SameStart(s, s1, s', fd);
    NewsIsOfTables(HeardOn(s, s', fd), s1, s', s1.sessions[k], user);
  }

  lemma MakesHears(first: seq<Packet>, news: seq<Packet>, last: seq<Packet>, s: State, c: Session, user: int)
    requires IsNews(news, s, c, user)
    ensures Hears((first + news) + last, first, s, c, user, last)
  {
    hide IsNews;
  }

  /** An announcement and then one answer. */
  lemma NewsThenAnswer(s: State, s1: State, user: int, k: nat, dest: int, p: Packet)
    requires Good(s1) && s1.sent == s.sent && k < |s1.sessions|
    ensures var s', fd := Announce(s1, user).Send(dest, p), s1.sessions[k].fd;
            s' == s1.(sent := s'.sent) && Hears(HeardOn(s, s', fd), [], s', s'.sessions[k], user, if fd == dest then [p] else [])
  {
    hide Good, Announce, HeardOn, IsNews, Hears;
    var told, fd := Announce(s1, user), s1.sessions[k].fd;
    var s', news := told.Send(dest, p), HeardOn(s, told, fd);
    OnlyNews(s, s1, user, k);
    OneMoreAnswer(s, told, dest, p, fd);
    NewsIsOfTables(news, told, s', s1.sessions[k], user);
    assert [] + news == news;
    MakesHears([], news, if fd == dest then [p] else [], s', s1.sessions[k], user);
  }

  lemma SignedOutIsGood(s: State, i: nat)
    requires Good(s) && i < |s.sessions| && s.sessions[i].authenticated
    ensures Good(s.(sessions := s.sessions[i := SignedOut(s.sessions[i])]))
  {
    LogoutKeepsGood(s, i);
    var s1 := s.(sessions := s.sessions[i := SignedOut(s.sessions[i])]);
    hide Good, Announce, AuthReply;
    AnnounceGrows(s1, s.sessions[i].id);
    SameButLog(Logout(s, i), s1);
  }

  lemma LogoutIs(s: State, i: nat, k: nat)
    requires Good(s) && i < |s.sessions| && s.sessions[i].authenticated && k < |s.sessions|
    ensures var s', c := Logout(s, i), s.sessions[i];
            && s' == s.(sessions := s.sessions[i := SignedOut(c)], sent := s'.sent)
            && Hears(HeardOn(s, s', s.sessions[k].fd), [], s', s'.sessions[k], c.id,
                     if k == i then [Plain(Auth(AUTH_LOGOUT, RESP_DONE, Truncated(c.username, NAME_LEN), ""))] else [])
  {
    var c := s.sessions[i];
    var s1 := s.(sessions := s.sessions[i := SignedOut(c)]);
    var answer := Plain(Auth(AUTH_LOGOUT, RESP_DONE, Truncated(c.username, NAME_LEN), ""));
    assert Logout(s, i) == Announce(s1, c.id).Send(c.fd, answer) by { hide Announce; }
    SignedOutIsGood(s, i);
    GoodSessions(s);
    FdsApart(s, i);
    hide Good, Logout, Announce, HeardOn, Hears, SessionsOk;
    NewsThenAnswer(s, s1, c.id, k, c.fd, answer);
  }

  lemma SameStart(s: State, s1: State, s': State, fd: int)
    requires s1.sent == s.sent
    ensures HeardOn(s, s', fd) == HeardOn(s1, s', fd)
  {}

  /** A logout signs its connection out; everybody who is still logged in gets the news, and the connection its answer. */
  lemma LogoutIsHandled(s: State, i: nat, p: Packet, hashOk: bool, k: nat)
    requires Good(s) && i < |s.sessions| && s.sessions[i].authenticated && k < |s.sessions| && p.payload.Auth? && p.payload.action == AUTH_LOGOUT
    ensures var s', c := Step(s, Request(i, p, hashOk)), s.sessions[i];
            && s' == s.(sessions := s.sessions[i := SignedOut(c)], sent := s'.sent)
            && Hears(HeardOn(s, s', s.sessions[k].fd), [], s', s'.sessions[k], c.id,
                     if k == i then [Plain(Auth(AUTH_LOGOUT, RESP_DONE, Truncated(c.username, NAME_LEN), ""))] else [])
  {
    AuthSteps(s, i, p, hashOk);
    LogoutIs(s, i, k);
    hide Good, Step, Logout, HeardOn, Hears;
  }

  lemma DisconnectIs(s: State, i: nat)
    requires Good(s) && i < |s.sessions|
    ensures var c, s1 := s.sessions[i], s.(sessions := Without(s.sessions, i));
            && Step(s, Hangup(i)) == (if c.authenticated then Announce(s1, c.id) else s1)
            && forall j :: 0 <= j < |s1.sessions| ==> s1.sessions[j].fd != c.fd
  {
    KnownActorId(s, i);
    GoodSessions(s);
    FdsApart(s, i);
    hide Good, Announce, SessionsOk;
    var s1 := s.(sessions := Without(s.sessions, i));
    assert forall j :: 0 <= j < |s1.sessions| ==> s1.sessions[j] == s.sessions[if j < i then j else j + 1];
  }

  lemma WithoutIsGood(s: State, i: nat)
    requires Good(s) && i < |s.sessions|
    ensures Good(s.(sessions := Without(s.sessions, i)))
  {
    DisconnectKeepsGood(s, i);
    DisconnectIs(s, i);
    var c, s1 := s.sessions[i], s.(sessions := Without(s.sessions, i));
    AnnounceGrows(s1, c.id);
    hide Good, Announce, Without;
    SameButLog(Step(s, Hangup(i)), s1);
  }

  /** A connection that goes takes its record with it; if a user was logged in on it, the others get the news, and its socket nothing. */
  lemma HangupIsHandled(s: State, i: nat, k: nat)
    requires Good(s) && i < |s.sessions|
    ensures var s', c := Step(s, Hangup(i)), s.sessions[i];
            && s' == s.(sessions := Without(s.sessions, i), sent := s'.sent) && HeardOn(s, s', c.fd) == []
            && (!c.authenticated ==> s'.sent == s.sent)
            && (c.authenticated && k < |s'.sessions| ==> IsNews(HeardOn(s, s', s'.sessions[k].fd), s', s'.sessions[k], c.id))
  {
    var s', c := Step(s, Hangup(i)), s.sessions[i];
    var s1 := s.(sessions := Without(s.sessions, i));
    DisconnectIs(s, i);
    WithoutIsGood(s, i);
    hide Good, Step, Announce, HeardOn, IsNews, Without;
    NobodyHears(s, c.fd);
    SameStart(s, s1, s', c.fd);
    NobodyHears(s1, c.fd);
    if c.authenticated {
      AnnounceGrows(s1, c.id);
      AnnouncementElsewhere(s1, c.id, c.fd);
      if k < |s'.sessions| {
        OnlyNews(s, s1, c.id, k);
      }
    }
  }

  lemma NobodyHears(s: State, fd: int)
    ensures HeardOn(s, s, fd) == []
  {}

  lemma KnownActorId(s: State, i: nat)
    requires Good(s) && i < |s.sessions|
    ensures s.sessions[i].authenticated ==> s.sessions[i].id > 0
  {
    assert s.sessions[i] in s.sessions;
    UserIdIn(s.users);
  }

  /** A new connection gets a blank record after the others while there are fewer than 64 of them; nobody hears of it. */
  lemma ConnectionIsTaken(s: State, fd: int, x: int)
    requires Enabled(s, Server.Accept(fd))
    ensures var s' := Step(s, Server.Accept(fd));
            && s' == s.(sessions := s'.sessions, sent := s'.sent)
            && s'.sessions == s.sessions + (if |s.sessions| < 64 then [Session(0, fd, false, "", -1)] else [])
            && HeardOn(s, s', x) == []
  {
    NobodyHears(s, x);
    if |s.sessions| < MAX_CLIENTS {
      NewsOf(s.sent, [Opened(fd)]);
      assert [Opened(fd)][..0] == [] && PacketsFor([], x) == [];
      assert PacketsFor([Opened(fd)], x) == [];
    } else {
      assert Step(s, Server.Accept(fd)) == s;
    }
  }
}
