/** What every event keeps: the constraints of the database and the single live session of each user. */
module Invariants {
  import opened Names
  import opened Protocol
  import opened Friends
  import Store
  import opened Server

  // ------------------------------------------------------------ definitions

  predicate UsersDiffer(a: UserRow, b: UserRow) {
    a.id != b.id && a.name != b.name
  }

  ghost predicate UsersOk(users: seq<UserRow>) {
    Pairwise(UsersDiffer, users) && forall u :: u in users ==> 0 < u.id
  }

  ghost predicate DmsOk(dms: seq<DmRow>, ids: seq<int>) {
    && (forall m :: m in dms ==> m.sender in ids && m.receiver in ids)
    && (forall i, j :: 0 <= i < j < |dms| ==> dms[i].id < dms[j].id)
  }

  ghost predicate DatabaseOk(s: State) {
    && UsersOk(s.users)
    && TableOk(s.friends) && References(s.friends, s.users)
    && Store.TablesOk(s.tables, s.Ids())
    && DmsOk(s.dms, s.Ids())
  }

  /** A session that carries a user carries one of the table, under the user's name; one that does not is blank. */
  predicate SessionOk(c: Session, users: seq<UserRow>) {
    && c.fd > 0
    && if c.authenticated then c.id in UserIds(users) && c.username == Truncated(NameOf(users, c.id), NAME_LEN)
       else c.id == 0 && c.username == ""
  }

  /** Two connections: different sockets, and never the same user twice. */
  predicate SessionsDiffer(a: Session, b: Session) {
    a.fd != b.fd && !(a.authenticated && b.authenticated && a.id == b.id)
  }

  ghost predicate SessionsOk(sessions: seq<Session>, users: seq<UserRow>) {
    && |sessions| <= MAX_CLIENTS
    && (forall c :: c in sessions ==> SessionOk(c, users))
    && Pairwise(SessionsDiffer, sessions)
  }

  ghost predicate Good(s: State) {
    DatabaseOk(s) && SessionsOk(s.sessions, s.users)
  }

  // ------------------------------------------------------------ users

  lemma UserIdIn(users: seq<UserRow>)
    ensures forall u :: u in users ==> u.id in UserIds(users)
    ensures forall id :: id in UserIds(users) ==> exists u :: u in users && u.id == id
  {}

  lemma UserIdsAppend(users: seq<UserRow>, u: UserRow)
    ensures UserIds(users + [u]) == UserIds(users) + [u.id]
  {}

  lemma NameOfAppend(users: seq<UserRow>, u: UserRow, id: int)
    ensures NameOf(users + [u], id) == if id == u.id then u.name else NameOf(users, id)
  {}

  lemma OneUserPerId(users: seq<UserRow>, u: UserRow, v: UserRow)
    requires Pairwise(UsersDiffer, users) && u in users && v in users && (u.id == v.id || u.name == v.name)
    ensures u == v
  {}

  lemma {:induction false} NameOfUser(users: seq<UserRow>, u: UserRow)
    requires Pairwise(UsersDiffer, users) && u in users
    ensures NameOf(users, u.id) == u.name
  {
    var front, last := users[..|users| - 1], users[|users| - 1];
    if last.id == u.id {
      OneUserPerId(users, u, last);
    } else {
      NameOfUser(front, u);
    }
  }

  lemma {:induction false} IdOfUser(users: seq<UserRow>, u: UserRow)
    requires Pairwise(UsersDiffer, users) && u in users
    ensures IdOf(users, u.name) == u.id
  {
    var front, last := users[..|users| - 1], users[|users| - 1];
    if last.name == u.name {
      OneUserPerId(users, u, last);
    } else {
      IdOfUser(front, u);
    }
  }

  /** The name lookup of the handlers finds the one user of that name. */
  lemma LookupIsExact(users: seq<UserRow>, name: string)
    requires UsersOk(users) && NameTaken(users, name)
    ensures var id := IdOf(users, name);
            id > 0 && id in UserIds(users) && NameOf(users, id) == name
  {
    var u :| u in users && u.name == name;
    IdOfUser(users, u);
    NameOfUser(users, u);
    UserIdIn(users);
  }

  lemma {:induction false} ProfileKeepsNames(users: seq<UserRow>, id: int, profile: string, other: int)
    ensures UserIds(WithProfile(users, id, profile)) == UserIds(users)
    ensures NameOf(WithProfile(users, id, profile), other) == NameOf(users, other)
  {
    if users != [] {
      ProfileKeepsNames(users[..|users| - 1], id, profile, other);
      assert WithProfile(users, id, profile)[..|users| - 1] == WithProfile(users[..|users| - 1], id, profile);
    }
  }

  // ------------------------------------------------------------ the database

  lemma NewUserKeepsDatabase(s: State, name: string)
    requires DatabaseOk(s) && !NameTaken(s.users, name)
    ensures DatabaseOk(s.(users := s.users + [UserRow(NextId(s.Ids()), name, "")]))
  {
    var u := UserRow(NextId(s.Ids()), name, "");
    UserIdIn(s.users);
    UserIdsAppend(s.users, u);
    Store.PairwiseAppend(UsersDiffer, s.users, u);
    Store.MoreUsersKeepTables(s.tables, s.Ids(), UserIds(s.users + [u]));
  }

  lemma NewDmKeepsDatabase(s: State, sender: int, receiver: int, text: string)
    requires DatabaseOk(s)
    ensures DatabaseOk(SaveDm(s, sender, receiver, text))
  {
    forall m | m in s.dms ensures m.id < NextId(DmIds(s.dms)) {
      var k :| 0 <= k < |s.dms| && s.dms[k] == m;
      assert DmIds(s.dms)[k] == m.id;
      assert m.id in DmIds(s.dms);
    }
  }

  lemma NewFriendsKeepDatabase(s: State, op: FriendOp)
    requires DatabaseOk(s) && op.known == s.Ids()
    ensures DatabaseOk(s.(friends := Perform(op, s.friends).1))
  {
    PerformKeepsTable(op, s.friends);
    PerformKeepsReferences(op, s.users, s.friends);
  }

  lemma NewTablesKeepDatabase(s: State, op: Store.Op)
    requires DatabaseOk(s) && op.users == s.Ids()
    ensures DatabaseOk(s.(tables := Store.Perform(op, s.tables).1))
  {
    Store.PerformKeepsTables(op, s.tables);
  }

  lemma NewProfileKeepsDatabase(s: State, id: int, profile: string)
    requires DatabaseOk(s)
    ensures DatabaseOk(s.(users := WithProfile(s.users, id, profile)))
  {}

  // ------------------------------------------------------------ sessions

  /** Same connections with the same users; only `currentServer` may differ. */
  ghost predicate SameUsers(a: seq<Session>, b: seq<Session>) {
    && |a| == |b|
    && forall i :: 0 <= i < |a| ==>
         a[i].id == b[i].id && a[i].fd == b[i].fd && a[i].authenticated == b[i].authenticated && a[i].username == b[i].username
  }

  lemma SameUsersKeepsSessions(a: seq<Session>, b: seq<Session>, users: seq<UserRow>)
    requires SessionsOk(a, users) && SameUsers(a, b)
    ensures SessionsOk(b, users)
  {
    forall i, j | 0 <= i < j < |b| ensures SessionsDiffer(b[i], b[j]) {
      assert SessionsDiffer(a[i], a[j]);
    }
    forall c | c in b ensures SessionOk(c, users) {
      var k :| 0 <= k < |b| && b[k] == c;
      assert a[k] in a;
    }
  }

  /** Users who keep their names keep their sessions. */
  lemma UsersKeepSessions(sessions: seq<Session>, users: seq<UserRow>, users': seq<UserRow>)
    requires SessionsOk(sessions, users)
    requires forall id :: id in UserIds(users) ==> id in UserIds(users') && NameOf(users', id) == NameOf(users, id)
    ensures SessionsOk(sessions, users')
  {}

  lemma {:induction false} SessionReplaced(sessions: seq<Session>, users: seq<UserRow>, i: nat, c: Session)
    requires SessionsOk(sessions, users) && i < |sessions| && SessionOk(c, users) && c.fd == sessions[i].fd
    requires c.authenticated ==> forall k :: 0 <= k < |sessions| && k != i ==> !sessions[k].Is(c.id)
    ensures SessionsOk(sessions[i := c], users)
  {
    var r := sessions[i := c];
    forall a, b | 0 <= a < b < |r| ensures SessionsDiffer(r[a], r[b]) {
      assert SessionsDiffer(sessions[a], sessions[b]);
      assert sessions[a] in sessions && sessions[b] in sessions;
    }
    forall x | x in r ensures SessionOk(x, users) {
      var k :| 0 <= k < |r| && r[k] == x;
      assert sessions[k] in sessions;
    }
  }

  lemma NewUserKeepsSessions(s: State, name: string)
    requires Good(s) && !NameTaken(s.users, name)
    ensures var u := UserRow(NextId(s.Ids()), name, "");
            && SessionsOk(s.sessions, s.users + [u])
            && forall c :: c in s.sessions ==> c.id != u.id
  {
    var u := UserRow(NextId(s.Ids()), name, "");
    UserIdsAppend(s.users, u);
    forall id | id in s.Ids() ensures NameOf(s.users + [u], id) == NameOf(s.users, id) {
      NameOfAppend(s.users, u, id);
    }
    UsersKeepSessions(s.sessions, s.users, s.users + [u]);
  }

  lemma RegisterKeepsGood(s: State, i: nat, name: string, hashOk: bool)
    requires Good(s) && i < |s.sessions|
    ensures Good(Register(s, i, name, hashOk))
  {
    if hashOk && !NameTaken(s.users, name) {
      var u := UserRow(NextId(s.Ids()), name, "");
      var c := s.sessions[i].LoggedIn(u.id, name);
      NewUserKeepsDatabase(s, name);
      NewUserKeepsSessions(s, name);
      assert s.sessions[i] in s.sessions;
      UserIdsAppend(s.users, u);
      NameOfAppend(s.users, u, u.id);
      forall k | 0 <= k < |s.sessions| ensures !s.sessions[k].Is(u.id) {
        assert s.sessions[k] in s.sessions;
      }
      SessionReplaced(s.sessions, s.users + [u], i, c);
    }
    hide DatabaseOk, SessionsOk;
  }

  lemma RevokedSessions(sessions: seq<Session>, users: seq<UserRow>, fd: int, user: int)
    requires SessionsOk(sessions, users)
    ensures SessionsOk(Revoked(sessions, fd, user), users)
    ensures forall k :: 0 <= k < |sessions| && sessions[k].fd != fd ==> !Revoked(sessions, fd, user)[k].Is(user)
    ensures forall k :: 0 <= k < |sessions| ==> Revoked(sessions, fd, user)[k].fd == sessions[k].fd
  {}

  lemma LoginKeepsGood(s: State, i: nat, name: string, hashOk: bool)
    requires Good(s) && i < |s.sessions|
    ensures Good(Login(s, i, name, hashOk))
  {
    if hashOk && NameTaken(s.users, name) {
      var fd, user := s.sessions[i].fd, IdOf(s.users, name);
      LookupIsExact(s.users, name);
      RevokedSessions(s.sessions, s.users, fd, user);
      var r := Revoked(s.sessions, fd, user);
      assert s.sessions[i] in s.sessions;
      forall k | 0 <= k < |r| && k != i ensures !r[k].Is(user) {
        assert SessionsDiffer(s.sessions[if k < i then k else i], s.sessions[if k < i then i else k]);
      }
      SessionReplaced(r, s.users, i, r[i].LoggedIn(user, name));
    }
  }

  lemma LogoutKeepsGood(s: State, i: nat)
    requires Good(s) && i < |s.sessions|
    ensures Good(Logout(s, i))
  {
    assert s.sessions[i] in s.sessions;
    SessionReplaced(s.sessions, s.users, i, s.sessions[i].Cleared());
  }

  lemma ConnectKeepsGood(s: State, fd: int)
    requires Good(s) && Enabled(s, Accept(fd))
    ensures Good(Connect(s, fd))
  {}

  lemma DisconnectKeepsGood(s: State, i: nat)
    requires Good(s) && i < |s.sessions|
    ensures Good(Disconnect(s, i))
  {
    var r := s.sessions[..i] + s.sessions[i + 1..];
    forall a, b | 0 <= a < b < |r| ensures SessionsDiffer(r[a], r[b]) {
      assert SessionsDiffer(s.sessions[if a < i then a else a + 1], s.sessions[if b < i then b else b + 1]);
    }
    forall x | x in r ensures x in s.sessions {}
  }

  lemma LogIsIrrelevant(s: State, sent: seq<Out>)
    requires Good(s)
    ensures Good(s.(sent := sent))
  {}

  lemma FriendKeepsGood(s: State, i: nat, action: int, name: string)
    requires Good(s) && i < |s.sessions| && IsFriendAction(action)
    ensures Good(HandleFriend(s, i, action, name))
  {
    NewFriendsKeepDatabase(s, FriendOp(VerbOf(action), s.sessions[i].id, IdOf(s.users, name), s.Ids()));
    hide DatabaseOk, SessionsOk, Perform;
  }

  lemma StatusKeepsGood(s: State, i: nat, profile: string)
    requires Good(s) && i < |s.sessions|
    ensures Good(UpdateStatus(s, i, profile))
  {
    var id := s.sessions[i].id;
    NewProfileKeepsDatabase(s, id, profile);
    forall other | other in s.Ids()
      ensures other in UserIds(WithProfile(s.users, id, profile))
      ensures NameOf(WithProfile(s.users, id, profile), other) == NameOf(s.users, other)
    {
      ProfileKeepsNames(s.users, id, profile, other);
    }
    UsersKeepSessions(s.sessions, s.users, WithProfile(s.users, id, profile));
    hide DatabaseOk, SessionsOk;
  }

  lemma SocialKeepsGood(s: State, i: nat, p: Packet)
    requires Good(s) && i < |s.sessions| && p.payload.Social?
    ensures Good(HandleSocial(s, i, p))
  {
    if IsFriendAction(p.payload.action) {
      FriendKeepsGood(s, i, p.payload.action, p.payload.name);
    }
    StatusKeepsGood(s, i, p.payload.profile);
    LogIsIrrelevant(s, HandleSocial(s, i, p).sent);
    hide Good, HandleFriend, UpdateStatus, FriendListStream, UserListStream;
  }

  lemma ServerKeepsGood(s: State, i: nat, p: Packet)
    requires Good(s) && i < |s.sessions| && p.payload.Server?
    ensures Good(HandleServer(s, i, p))
  {
    var q := p.payload;
    SameUsersKeepsSessions(s.sessions, HandleServer(s, i, p).sessions, s.users);
    if IsTableAction(q.action) {
      NewTablesKeepDatabase(s, OpOf(s, s.sessions[i], RequestOf(q)));
    }
    hide DatabaseOk, SessionsOk, Store.Perform;
  }

  lemma ChannelKeepsGood(s: State, i: nat, p: Packet)
    requires Good(s) && i < |s.sessions| && p.payload.Channel?
    ensures Good(HandleChannel(s, i, p))
  {
    var c, q := s.sessions[i], p.payload;
    NewTablesKeepDatabase(s, OpOf(s, c, Store.Post(q.channel, q.text)));
    NewTablesKeepDatabase(s, OpOf(s, c, Store.AddChannel(q.server, q.name)));
    NewTablesKeepDatabase(s, OpOf(s, c, Store.DropChannel(q.channel)));
  }

  /** Every event keeps every constraint of the database and at most one live session for each user. */
  lemma StepKeepsGood(s: State, e: Event)
    requires Good(s) && Enabled(s, e)
    ensures Good(Step(s, e))
  {
    hide Good, Connect, Disconnect, HandleAuth, HandleDm, HandleServer, HandleChannel, HandleSocial;
    match e
    case Accept(fd) => ConnectKeepsGood(s, fd);
    case Hangup(i) => DisconnectKeepsGood(s, i);
    case Request(i, p, hashOk) =>
      match p.payload
      case Auth(_, _, _, _) => AuthKeepsGood(s, i, p, hashOk);
      case Dm(_, _, _, _, _) => DmKeepsGood(s, i, p);
      case Server(_, _, _, _, _, _) => ServerKeepsGood(s, i, p);
      case Channel(_, _, _, _, _, _, _) => ChannelKeepsGood(s, i, p);
      case Social(_, _, _, _, _, _) => SocialKeepsGood(s, i, p);
  }

  lemma AuthKeepsGood(s: State, i: nat, p: Packet, hashOk: bool)
    requires Good(s) && i < |s.sessions| && p.payload.Auth?
    ensures Good(HandleAuth(s, i, p, hashOk))
  {
    hide Good, Register, Login, Logout;
    RegisterKeepsGood(s, i, p.payload.username, hashOk);
    LoginKeepsGood(s, i, p.payload.username, hashOk);
    LogoutKeepsGood(s, i);
  }

  lemma DmKeepsGood(s: State, i: nat, p: Packet)
    requires Good(s) && i < |s.sessions| && p.payload.Dm?
    ensures Good(HandleDm(s, i, p))
  {
    NewDmKeepsDatabase(s, s.sessions[i].id, p.payload.recipient, p.payload.text);
  }

  /** In every reachable state: one live session per user, all constraints of the schema. */
  lemma {:induction false} RunKeepsGood(s: State, es: seq<Event>)
    requires Good(s) && Runs(s, es)
    ensures Good(Run(s, es))
    decreases |es|
  {
    if es != [] {
      StepKeepsGood(s, es[0]);
      RunKeepsGood(Step(s, es[0]), es[1..]);
    }
  }

  // ------------------------------------------------------------ what single sessions are for

  /** Searches that stop at the first connection with a user's id find the user's only live session, if there is one. */
  lemma FirstMatchIsOnlyMatch(s: State, user: int)
    requires Good(s) && user > 0
    ensures var k := FirstWithId(s.sessions, user, 0);
            && (k >= 0 <==> Online(s.sessions, user))
            && forall i :: 0 <= i < |s.sessions| ==> (s.sessions[i].Is(user) <==> i == k)
  {
    var k := FirstWithId(s.sessions, user, 0);
    forall i | 0 <= i < |s.sessions| ensures s.sessions[i].Is(user) <==> i == k {
      assert s.sessions[i] in s.sessions;
      if k >= 0 {
        assert s.sessions[k] in s.sessions;
        if i < k {
          assert SessionsDiffer(s.sessions[i], s.sessions[k]);
        } else if k < i {
          assert SessionsDiffer(s.sessions[k], s.sessions[i]);
        }
      }
    }
  }
}
