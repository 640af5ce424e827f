/** Runs in which a logged-in client does not know its own name, or stores more names than its array holds. */
module LoginRuns {
  import opened Names
  import opened Protocol
  import opened Friends
  import opened Listing
  import opened ClientView
  import opened LoginForm
  import opened Server
  import opened Invariants
  import opened Traffic
  import opened FriendView
  import opened Accounts
  import opened OwnName

  predicate IsLogin(p: Packet, name: string) {
    p.payload.Auth? && p.payload.action == AUTH_LOGIN && p.payload.username == name
  }

  predicate IsLogout(p: Packet) {
    p.payload.Auth? && p.payload.action == AUTH_LOGOUT
  }

  // ------------------------------------------------------------ logging in again and again

  /** Logging in and out again, `n` times. */
  function Cycles(i: nat, login: Packet, logout: Packet, n: nat): seq<Event> {
    if n == 0 then [] else [Request(i, login, true), Request(i, logout, true)] + Cycles(i, login, logout, n - 1)
  }

  lemma LogoutKeepsWelcomes(s: State, i: nat)
    requires i < |s.sessions|
    ensures StandingOn(Logout(s, i).sent, s.sessions[i].fd).welcomes == StandingOn(s.sent, s.sessions[i].fd).welcomes
  {
    hide Announce, StandingOn;
    var c, s' := s.sessions[i], Logout(s, i);
    var s1 := if c.authenticated then Announce(s.(sessions := s.sessions[i := c.Cleared()]), c.id) else s;
    StandingOnAppend(s1.sent, s'.sent[|s1.sent|], c.fd);
    if c.authenticated {
      AnnounceKeepsMe(s.(sessions := s.sessions[i := c.Cleared()]), c.id, c.fd);
      KeptMe(s.sent, s1.sent, c.fd);
    }
  }

  lemma LoginStep(s: State, i: nat, p: Packet, name: string)
    requires Good(s) && i < |s.sessions| && IsLogin(p, name) && NameTaken(s.users, name)
    ensures var s1, fd := Step(s, Request(i, p, true)), s.sessions[i].fd;
            && s1 == Login(s, i, name, true)
            && Good(s1) && s1.users == s.users && |s1.sessions| == |s.sessions| && s1.sessions[i].fd == fd
            && StandingOn(s1.sent, fd).welcomes == StandingOn(s.sent, fd).welcomes + 1
  {
    hide Login, StandingOn, Good, NameTaken, IdOf, RevokeOuts;
    StepKeepsGood(s, Request(i, p, true));
    assert Step(s, Request(i, p, true)) == Login(s, i, name, true);
    hide Step;
    LoginTells(s, i, name, s.sessions[i].fd);
    LoginKeepsUsers(s, i, name);
  }

  lemma LogoutStep(s: State, i: nat, q: Packet, hashOk: bool)
    requires Good(s) && i < |s.sessions| && IsLogout(q)
    ensures var s1, fd := Step(s, Request(i, q, hashOk)), s.sessions[i].fd;
            && s1 == Logout(s, i)
            && Good(s1) && s1.users == s.users && |s1.sessions| == |s.sessions| && s1.sessions[i].fd == fd
            && StandingOn(s1.sent, fd).welcomes == StandingOn(s.sent, fd).welcomes
  {
    hide Logout, StandingOn, Good;
    StepKeepsGood(s, Request(i, q, hashOk));
    assert Step(s, Request(i, q, hashOk)) == Logout(s, i);
    hide Step;
    LogoutKeepsWelcomes(s, i);
    LogoutKeepsUsers(s, i);
  }

  lemma {:induction false} CyclesAreWelcomed(s: State, i: nat, p: Packet, q: Packet, name: string, n: nat)
    requires Good(s) && i < |s.sessions| && IsLogin(p, name) && IsLogout(q) && NameTaken(s.users, name)
    ensures var es, fd := Cycles(i, p, q, n), s.sessions[i].fd;
            Runs(s, es) && StandingOn(Run(s, es).sent, fd).welcomes == StandingOn(s.sent, fd).welcomes + n
    decreases n
  {
    hide Good, Step, StandingOn, NameTaken, Login, Logout;
    if n > 0 {
      LoginStep(s, i, p, name);
      var s1 := Step(s, Request(i, p, true));
      LogoutStep(s1, i, q, true);
      var s2, es := Step(s1, Request(i, q, true)), Cycles(i, p, q, n);
      CyclesAreWelcomed(s2, i, p, q, name, n - 1);
      assert es[1..][1..] == Cycles(i, p, q, n - 1);
    }
  }

  /** Each cycle stores one more name at the client, whatever its user does in between. */
  lemma CyclesAddNames(s: State, i: nat, p: Packet, q: Packet, name: string, n: nat, xs: seq<Input>, ys: seq<Input>)
    requires Good(s) && i < |s.sessions| && IsLogin(p, name) && IsLogout(q) && NameTaken(s.users, name)
    requires Arrivals(xs) == PacketsOn(s.sent, s.sessions[i].fd)
    ensures var es, fd := Cycles(i, p, q, n), s.sessions[i].fd;
            && Runs(s, es)
            && (Arrivals(ys) == PacketsOn(Run(s, es).sent, fd) ==> |Client(ys).names| == |Client(xs).names| + n)
  {
    CyclesAreWelcomed(s, i, p, q, name, n);
    NamesCountWelcomes(xs);
    NamesCountWelcomes(ys);
    hide Good, Run, Runs, Cycles, Client, PacketsOn;
  }

  /** From a new connection, sixteen logins fill the array of names, and the seventeenth goes past it. */
  lemma SeventeenLogins(s: State, fd: int, p: Packet, q: Packet, name: string, xs: seq<Input>, ys: seq<Input>)
    requires Good(s) && Enabled(s, Accept(fd)) && |s.sessions| < MAX_CLIENTS
    requires IsLogin(p, name) && IsLogout(q) && NameTaken(s.users, name)
    ensures var i, s1 := |s.sessions|, Connect(s, fd);
            && Runs(s1, Cycles(i, p, q, 16)) && Runs(s1, Cycles(i, p, q, 17))
            && (Arrivals(xs) == PacketsOn(Run(s1, Cycles(i, p, q, 16)).sent, fd) ==> |Client(xs).names| == MAX_USERS)
            && (Arrivals(ys) == PacketsOn(Run(s1, Cycles(i, p, q, 17)).sent, fd) ==> !NamesFit(ys))
  {
    var s1 := Connect(s, fd);
    ConnectKeepsGood(s, fd);
    PacketsOnAppend(s.sent, Opened(fd), fd);
    hide Good, Run, Runs, Cycles, NameTaken, PacketsOn;
    CyclesAddNames(s1, |s.sessions|, p, q, name, 16, [], xs);
    CyclesAddNames(s1, |s.sessions|, p, q, name, 17, [], ys);
  }

  // ------------------------------------------------------------ histories that go on

  /** Packets that arrive one after the other. */
  function Arrive(ps: seq<Packet>): (xs: seq<Input>)
    ensures |xs| == |ps|
  {
    Map((p: Packet) => Arrival(p), ps)
  }

  lemma {:induction false} ArrivalsOfArrive(ps: seq<Packet>)
    ensures Arrivals(Arrive(ps)) == ps
  {
    if ps != [] {
      ArrivalsOfArrive(ps[..|ps| - 1]);
      assert Arrive(ps)[..|ps| - 1] == Arrive(ps[..|ps| - 1]);
    }
  }

  lemma ArriveOneMore(xs: seq<Input>, ps: seq<Packet>, p: Packet)
    ensures xs + Arrive(ps + [p]) == (xs + Arrive(ps)) + [Arrival(p)]
  {}

  lemma OnTimeStep(xs: seq<Input>, x: Input)
    requires OnTime(xs) && Heard(xs + [x]).answers <= |Submitted(xs + [x])|
    ensures OnTime(xs + [x])
  {
    hide Heard, Submitted;
    forall n | 0 <= n <= |xs| + 1 ensures Heard((xs + [x])[..n]).answers <= |Submitted((xs + [x])[..n])| {
      if n <= |xs| {
        assert (xs + [x])[..n] == xs[..n];
      } else {
        assert (xs + [x])[..n] == xs + [x];
      }
    }
  }

  lemma OnTimeNow(xs: seq<Input>)
    requires OnTime(xs)
    ensures Heard(xs).answers <= |Submitted(xs)|
  {
    hide Heard, Submitted;
    assert xs[..|xs|] == xs;
  }

  /** Arrivals without an answer to a login leave the history in order; without anything about the account they leave the form alone. */
  lemma {:induction false} QuietArrivals(xs: seq<Input>, ps: seq<Packet>)
    requires OnTime(xs) && forall p :: p in ps ==> !IsLoginAnswer(p)
    ensures var ys := xs + Arrive(ps);
            && OnTime(ys) && Submitted(ys) == Submitted(xs) && Heard(ys).answers == Heard(xs).answers
            && ((forall p :: p in ps ==> !p.payload.Auth?) ==> Client(ys).form == Client(xs).form)
  {
    hide Heard, Submitted, Client, OnTime, IsLoginAnswer;
    if ps == [] {
      assert xs + Arrive(ps) == xs;
    } else {
      var front, p := ps[..|ps| - 1], ps[|ps| - 1];
      QuietArrivals(xs, front);
      var ys := xs + Arrive(front);
      assert ps == front + [p];
      ArriveOneMore(xs, front, p);
      HeardAppend(ys, Arrival(p));
      SubmittedAppend(ys, Arrival(p));
      ClientAppend(ys, Arrival(p));
      assert !IsLoginAnswer(p);
      QuietTold(Heard(ys), p);
      NamesStep(Client(ys), Arrival(p));
      assert Submitted(ys) + [] == Submitted(ys);
      OnTimeNow(ys);
      OnTimeStep(ys, Arrival(p));
      hide Advance;
      if forall q :: q in ps ==> !q.payload.Auth? {
        assert p in ps;
        forall q | q in front ensures q in ps {}
      }
    }
  }

  lemma QuietTold(t: Standing, p: Packet)
    requires !IsLoginAnswer(p)
    ensures Told(t, p).answers == t.answers
  {}

  /** What the user does at the form: edits it and submits it, `n` times. */
  function Enters(name: string, n: nat): seq<Input> {
    if n == 0 then [Typing(name)] else Enters(name, n - 1) + [Submit]
  }

  /** The history `ys` goes on from `xs` without arrivals, leaving the form at `name` after submissions of it. */
  ghost predicate Entered(xs: seq<Input>, ys: seq<Input>, name: string, names: seq<string>) {
    && OnTime(ys) && Heard(ys) == Heard(xs) && Arrivals(ys) == Arrivals(xs)
    && Client(ys).form == name && Submitted(ys) == Submitted(xs) + names
  }

  lemma FormEdited(xs: seq<Input>, name: string)
    requires OnTime(xs) && |name| <= NAME_LEN
    ensures Entered(xs, xs + [Typing(name)], name, [])
  {
    hide Heard, Submitted, Client, OnTime, Advance;
    var x := Typing(name);
    HeardAppend(xs, x);
    SubmittedAppend(xs, x);
    ClientAppend(xs, x);
    NamesStep(Client(xs), x);
    OnTimeNow(xs);
    ArrivalsAppend(xs, [x]);
    NoArrivals(x);
    OnTimeStep(xs, x);
  }

  lemma FormSubmitted(xs: seq<Input>, ys: seq<Input>, name: string, names: seq<string>)
    requires Entered(xs, ys, name, names) && name != ""
    ensures Entered(xs, ys + [Submit], name, names + [name])
  {
    hide Heard, Submitted, Client, OnTime, Advance;
    HeardAppend(ys, Submit);
    SubmittedAppend(ys, Submit);
    ClientAppend(ys, Submit);
    NamesStep(Client(ys), Submit);
    OnTimeNow(ys);
    ArrivalsAppend(ys, [Submit]);
    NoArrivals(Submit);
    OnTimeStep(ys, Submit);
  }

  lemma {:induction false} EntersSubmits(xs: seq<Input>, name: string, n: nat)
    requires OnTime(xs) && name != "" && |name| <= NAME_LEN
    ensures Entered(xs, xs + Enters(name, n), name, seq(n, k => name))
  {
    hide Entered, OnTime;
    if n == 0 {
      FormEdited(xs, name);
      assert seq(0, k => name) == [];
    } else {
      EntersSubmits(xs, name, n - 1);
      FormSubmitted(xs, xs + Enters(name, n - 1), name, seq(n - 1, k => name));
      assert xs + Enters(name, n) == (xs + Enters(name, n - 1)) + [Submit];
      assert seq(n, k => name) == seq(n - 1, k => name) + [name];
    }
  }

  lemma NoArrivals(x: Input)
    requires !x.Arrival?
    ensures Arrivals([x]) == []
  {
    assert [x][..0] == [];
  }

  /** The packets of a login for its own connection: nothing about the account, and then the answer OK. */
  lemma LoginPackets(s: State, i: nat, name: string) returns (ps: seq<Packet>)
    requires i < |s.sessions| && NameTaken(s.users, name)
    ensures var s', fd := Login(s, i, name, true), s.sessions[i].fd;
            && (forall p :: p in ps ==> !p.payload.Auth?)
            && PacketsOn(s'.sent, fd) == PacketsOn(s.sent, fd) + (ps + [AuthReply(AUTH_LOGIN, RESP_OK, "")])
  {
    hide Login, LoginOuts, NameTaken, IdOf, RevokeOuts, KeepsAnswers, AuthReply, PacketsOn;
    var fd, before := s.sessions[i].fd, LoginOuts(s, i, name).sent;
    LoginSteps(s, i, name);
    LoginOutsSpareAnswers(s, i, name, fd);
    RevocationSparesItself(s, fd, IdOf(s.users, name), name);
    PacketsGrow(s.sent, before, fd);
    QuietPackets(s.sent, before, fd);
    ps := PacketsFor(News(s.sent, before), fd);
    PacketsOnAppend(before, Sent(fd, AuthReply(AUTH_LOGIN, RESP_OK, "")), fd);
    assert (PacketsOn(s.sent, fd) + ps) + [AuthReply(AUTH_LOGIN, RESP_OK, "")] == PacketsOn(s.sent, fd) + (ps + [AuthReply(AUTH_LOGIN, RESP_OK, "")]);
  }

  lemma QuietPackets(a: seq<Out>, b: seq<Out>, fd: int)
    requires KeepsMe(a, b, fd)
    ensures forall p :: p in PacketsFor(News(a, b), fd) ==> !p.payload.Auth?
  {
    forall o | o in News(a, b) && o.fd == fd ensures o.Sent? && !o.packet.payload.Auth? {
      var k :| 0 <= k < |News(a, b)| && News(a, b)[k] == o;
      assert b[|a| + k] == o;
    }
    AllPacketsFor(News(a, b), fd, (p: Packet) => !p.payload.Auth?);
  }

  /** When these packets have arrived, the client has the name that its form held, and an empty form. */
  lemma WelcomeArrives(xs: seq<Input>, ps: seq<Packet>)
    requires OnTime(xs) && Heard(xs).answers < |Submitted(xs)| && forall p :: p in ps ==> !p.payload.Auth?
    ensures var ys := xs + Arrive(ps + [AuthReply(AUTH_LOGIN, RESP_OK, "")]);
            && OnTime(ys) && Submitted(ys) == Submitted(xs) && Heard(ys).answers == Heard(xs).answers + 1
            && Client(ys).Me() == Some(Client(xs).form) && Client(ys).form == ""
            && Arrivals(ys) == Arrivals(xs) + (ps + [AuthReply(AUTH_LOGIN, RESP_OK, "")])
  {
    hide Heard, Submitted, Client, OnTime, AuthReply, Advance;
    var ok := AuthReply(AUTH_LOGIN, RESP_OK, "");
    var ys := xs + Arrive(ps);
    QuietArrivals(xs, ps);
    ArriveOneMore(xs, ps, ok);
    HeardAppend(ys, Arrival(ok));
    SubmittedAppend(ys, Arrival(ok));
    ClientAppend(ys, Arrival(ok));
    ReplyTold(Heard(ys), AUTH_LOGIN, RESP_OK, "");
    NamesStep(Client(ys), Arrival(ok));
    assert Submitted(ys) + [] == Submitted(ys);
    OnTimeStep(ys, Arrival(ok));
    OkIsWelcome();
    ArrivalsAppend(xs, Arrive(ps + [ok]));
    ArrivalsOfArrive(ps + [ok]);
  }

  lemma OkIsWelcome()
    ensures IsWelcome(AuthReply(AUTH_LOGIN, RESP_OK, ""))
  {}

  lemma LookupOfGood(s: State, name: string)
    requires Good(s) && NameTaken(s.users, name)
    ensures NameOf(s.users, IdOf(s.users, name)) == name
  {
    LookupIsExact(s.users, name);
  }

  // ------------------------------------------------------------ the form submitted twice

  /** The client's side: two submissions, and two answers OK after them. */
  lemma TwoSubmissions(xs: seq<Input>, name: string, ps: seq<Packet>, qs: seq<Packet>)
    requires OnTime(xs) && Heard(xs).answers == |Submitted(xs)| && name != "" && |name| <= NAME_LEN
    requires (forall p :: p in ps ==> !p.payload.Auth?) && forall p :: p in qs ==> !p.payload.Auth?
    ensures var ok := AuthReply(AUTH_LOGIN, RESP_OK, "");
            var ys := xs + Enters(name, 2) + Arrive((ps + [ok]) + (qs + [ok]));
            && OnTime(ys) && Submitted(ys) == Submitted(xs) + [name, name] && Client(ys).Me() == Some("")
            && Arrivals(ys) == (Arrivals(xs) + (ps + [ok])) + (qs + [ok])
  {
    hide Heard, Submitted, Client, OnTime, AuthReply, Enters, Arrive;
    var ok := AuthReply(AUTH_LOGIN, RESP_OK, "");
    EntersSubmits(xs, name, 2);
    var xs1 := xs + Enters(name, 2);
    assert seq(2, k => name) == [name, name];
    WelcomeArrives(xs1, ps);
    var xs2 := xs1 + Arrive(ps + [ok]);
    WelcomeArrives(xs2, qs);
    ArriveTwice(xs1, ps + [ok], qs + [ok]);
  }

  /** The server's side: it accepts both logins. */
  lemma TwoLogins(s: State, i: nat, p: Packet, name: string, book: seq<string>) returns (ps: seq<Packet>, qs: seq<Packet>)
    requires Good(s) && i < |s.sessions| && IsLogin(p, name) && NameTaken(s.users, name)
    ensures (forall p :: p in ps ==> !p.payload.Auth?) && forall p :: p in qs ==> !p.payload.Auth?
    ensures var e, fd, ok := Request(i, p, true), s.sessions[i].fd, AuthReply(AUTH_LOGIN, RESP_OK, "");
            && Runs(s, [e, e])
            && var s2 := Run(s, [e, e]);
            && Logins(s, [e, e], fd, book) == book + [name, name]
            && PacketsOn(s2.sent, fd) == (PacketsOn(s.sent, fd) + (ps + [ok])) + (qs + [ok])
            && LiveAs(s2, fd, IdOf(s.users, name)) && NameOf(s2.users, IdOf(s.users, name)) == name
  {
    hide Login, NameTaken, IdOf, PacketsOn, AuthReply, NameOf, LiveAs, Good;
    var e, fd := Request(i, p, true), s.sessions[i].fd;
    LoginStep(s, i, p, name);
    var s1 := Step(s, e);
    LoginStep(s1, i, p, name);
    TwoEvents(s, e, e);
    NotedTwice(s, i, p, name, book);
    hide Step, Run, Runs, Logins;
    ps := LoginPackets(s, i, name);
    qs := LoginPackets(s1, i, name);
    LoginTakesOver(s1, i, name, true, fd);
    LookupOfGood(s, name);
  }

  /**
   The first failing run.  The user presses Enter twice before the first answer arrives.  The server accepts
   both logins, and the client, logged in under the name, takes the empty name for its own.
   */
  lemma DoubleEnter(s: State, i: nat, p: Packet, name: string, book: seq<string>, xs: seq<Input>) returns (tail: seq<Packet>)
    requires Good(s) && i < |s.sessions| && IsLogin(p, name) && NameTaken(s.users, name) && name != "" && |name| <= NAME_LEN
    requires IsHistory(xs, s, s.sessions[i].fd, book) && book == Submitted(xs) && Heard(xs).answers == |book|
    ensures var e, fd, ys := Request(i, p, true), s.sessions[i].fd, xs + Enters(name, 2) + Arrive(tail);
            && Runs(s, [e, e])
            && var s2 := Run(s, [e, e]);
            && Logins(s, [e, e], fd, book) == book + [name, name] && IsHistory(ys, s2, fd, book + [name, name])
            && LiveAs(s2, fd, IdOf(s.users, name)) && NameOf(s2.users, IdOf(s.users, name)) == name
            && Client(ys).Me() == Some("")
  {
    hide NameTaken, IdOf, Client, Heard, Submitted, OnTime, PacketsOn, AuthReply, NameOf, LiveAs, Good, Enters, Run, Runs, Logins, Arrive;
    var ps, qs := TwoLogins(s, i, p, name, book);
    TwoSubmissions(xs, name, ps, qs);
    var ok := AuthReply(AUTH_LOGIN, RESP_OK, "");
    tail := (ps + [ok]) + (qs + [ok]);
  }

  lemma ArriveTwice(xs: seq<Input>, ps: seq<Packet>, qs: seq<Packet>)
    ensures (xs + Arrive(ps)) + Arrive(qs) == xs + Arrive(ps + qs)
  {}

  lemma TwoEvents(s: State, e: Event, f: Event)
    requires Enabled(s, e) && Enabled(Step(s, e), f)
    ensures Runs(s, [e, f]) && Run(s, [e, f]) == Step(Step(s, e), f)
  {
    OneEvent(Step(s, e), f);
    hide Step, Enabled;
    assert [e, f][0] == e && [e, f][1..] == [f];
  }

  lemma OneEvent(s: State, e: Event)
    requires Enabled(s, e)
    ensures Runs(s, [e]) && Run(s, [e]) == Step(s, e)
  {}

  lemma NotedTwice(s: State, i: nat, p: Packet, name: string, book: seq<string>)
    requires i < |s.sessions| && IsLogin(p, name)
    requires var e := Request(i, p, true);
             Enabled(Step(s, e), e) && Step(s, e).sessions[i].fd == s.sessions[i].fd && Runs(s, [e, e])
    ensures var e := Request(i, p, true); Logins(s, [e, e], s.sessions[i].fd, book) == book + [name, name]
  {
    hide Step;
    var e, fd := Request(i, p, true), s.sessions[i].fd;
    var s1 := Step(s, e);
    assert [e, e][0] == e && [e, e][1..] == [e] && [e][1..] == [];
    assert Logins(s, [e, e], fd, book) == Logins(s1, [e], fd, book + [name]);
    assert Logins(s1, [e], fd, book + [name]) == Logins(Step(s1, e), [], fd, (book + [name]) + [name]);
    assert (book + [name]) + [name] == book + [name, name];
  }

  // ------------------------------------------------------------ a logout that crosses a takeover

  /** The session that a login elsewhere ends is nobody's afterwards. */
  lemma TakenOverIsOut(s: State, i: nat, j: nat, name: string)
    requires Good(s) && i < |s.sessions| && j < |s.sessions| && i != j && NameTaken(s.users, name)
    requires s.sessions[i].authenticated && s.sessions[i].id == IdOf(s.users, name)
    ensures var s' := Login(s, j, name, true);
            |s'.sessions| == |s.sessions| && s'.sessions[i].fd == s.sessions[i].fd && !s'.sessions[i].authenticated
  {
    LoginSessions(s, j, name);
    hide Login;
    assert s.sessions[i] in s.sessions;
    OthersDiffer(s.sessions, s.users, j, i);
  }

  /** A logout on a connection where nobody is logged in is refused, and the client takes the refusal for a farewell. */
  lemma RefusedLogoutPackets(s: State, i: nat)
    requires i < |s.sessions| && !s.sessions[i].authenticated
    ensures Logout(s, i) == s.Send(s.sessions[i].fd, AuthReply(AUTH_LOGOUT, RESP_ERR_UNAUTHORIZED, ""))
    ensures PacketsOn(Logout(s, i).sent, s.sessions[i].fd) == PacketsOn(s.sent, s.sessions[i].fd) + [AuthReply(AUTH_LOGOUT, RESP_ERR_UNAUTHORIZED, "")]
  {
    PacketsOnAppend(s.sent, Sent(s.sessions[i].fd, AuthReply(AUTH_LOGOUT, RESP_ERR_UNAUTHORIZED, "")), s.sessions[i].fd);
    hide PacketsOn;
  }

  /** When the refusal arrives the form is empty. */
  lemma FarewellArrives(xs: seq<Input>, status: int, name: string)
    requires OnTime(xs)
    ensures var ys := xs + Arrive([AuthReply(AUTH_LOGOUT, status, name)]);
            OnTime(ys) && Submitted(ys) == Submitted(xs) && Heard(ys).answers == Heard(xs).answers && Client(ys).form == ""
  {
    hide Heard, Submitted, Client, OnTime;
    var p := AuthReply(AUTH_LOGOUT, status, name);
    QuietArrivals(xs, [p]);
    assert xs + Arrive([p]) == xs + [Arrival(p)];
    ClientAppend(xs, Arrival(p));
    NamesStep(Client(xs), Arrival(p));
  }

  /** The packets that somebody else's login brings. */
  lemma OthersLoginPackets(s: State, j: nat, name: string, fd: int) returns (ps: seq<Packet>)
    requires j < |s.sessions| && NameTaken(s.users, name) && s.sessions[j].fd != fd
    ensures PacketsOn(Login(s, j, name, true).sent, fd) == PacketsOn(s.sent, fd) + ps && forall p :: p in ps ==> !IsLoginAnswer(p)
  {
    hide Login, LoginOuts, NameTaken, IdOf, RevokeOuts, AuthReply, PacketsOn, KeepsMe, IsLoginAnswer;
    var before := LoginOuts(s, j, name).sent;
    LoginSteps(s, j, name);
    LoginOutsSpareAnswers(s, j, name, fd);
    PacketsGrow(s.sent, before, fd);
    ps := PacketsFor(News(s.sent, before), fd);
    PacketsOnAppend(before, Sent(s.sessions[j].fd, AuthReply(AUTH_LOGIN, RESP_OK, "")), fd);
    forall o | o in News(s.sent, before) && o.fd == fd ensures o.Sent? && !IsLoginAnswer(o.packet) {
      var k :| 0 <= k < |News(s.sent, before)| && News(s.sent, before)[k] == o;
      assert before[|s.sent| + k] == o;
    }
    AllPacketsFor(News(s.sent, before), fd, (p: Packet) => !IsLoginAnswer(p));
  }

  /** The client's side: the news of the takeover, a name typed and submitted, the refusal, and the answer OK. */
  lemma FarewellBetween(xs: seq<Input>, name: string, first: seq<Packet>, ps: seq<Packet>)
    requires OnTime(xs) && Heard(xs).answers == |Submitted(xs)| && name != "" && |name| <= NAME_LEN
    requires (forall p :: p in first ==> !IsLoginAnswer(p)) && forall p :: p in ps ==> !p.payload.Auth?
    ensures var no, ok := AuthReply(AUTH_LOGOUT, RESP_ERR_UNAUTHORIZED, ""), AuthReply(AUTH_LOGIN, RESP_OK, "");
            var ys := xs + Arrive(first) + Enters(name, 1) + Arrive([no] + (ps + [ok]));
            && OnTime(ys) && Submitted(ys) == Submitted(xs) + [name] && Client(ys).Me() == Some("")
            && Arrivals(ys) == ((Arrivals(xs) + first) + [no]) + (ps + [ok])
  {
    hide Heard, Submitted, Client, OnTime, AuthReply, Enters, Arrive, IsLoginAnswer;
    var no, ok := AuthReply(AUTH_LOGOUT, RESP_ERR_UNAUTHORIZED, ""), AuthReply(AUTH_LOGIN, RESP_OK, "");
    var xs1 := xs + Arrive(first);
    var xs2 := xs1 + Enters(name, 1);
    var xs3 := xs2 + Arrive([no]);
    QuietArrivals(xs, first);
    ArrivalsAppend(xs, Arrive(first));
    ArrivalsOfArrive(first);
    EntersSubmits(xs1, name, 1);
    assert seq(1, k => name) == [name];
    FarewellArrives(xs2, RESP_ERR_UNAUTHORIZED, "");
    ArrivalsAppend(xs2, Arrive([no]));
    ArrivalsOfArrive([no]);
    WelcomeArrives(xs3, ps);
    ArriveTwice(xs2, [no], ps + [ok]);
  }

  /** The server's side: the takeover, the refused logout, the login. */
  lemma TakeoverLogoutLogin(s: State, i: nat, j: nat, takeover: Packet, taken: string, q: Packet, p: Packet, name: string, book: seq<string>)
    returns (first: seq<Packet>, ps: seq<Packet>)
    requires Good(s) && i < |s.sessions| && j < |s.sessions| && i != j
    requires s.sessions[i].authenticated && NameTaken(s.users, taken) && s.sessions[i].id == IdOf(s.users, taken)
    requires IsLogin(takeover, taken) && IsLogout(q) && IsLogin(p, name) && NameTaken(s.users, name)
    ensures (forall p :: p in first ==> !IsLoginAnswer(p)) && forall p :: p in ps ==> !p.payload.Auth?
    ensures var es, fd := [Request(j, takeover, true), Request(i, q, true), Request(i, p, true)], s.sessions[i].fd;
            var no, ok := AuthReply(AUTH_LOGOUT, RESP_ERR_UNAUTHORIZED, ""), AuthReply(AUTH_LOGIN, RESP_OK, "");
            && Runs(s, es)
            && var s3 := Run(s, es);
            && Logins(s, es, fd, book) == book + [name]
            && PacketsOn(s3.sent, fd) == ((PacketsOn(s.sent, fd) + first) + [no]) + (ps + [ok])
            && LiveAs(s3, fd, IdOf(s.users, name)) && NameOf(s3.users, IdOf(s.users, name)) == name
  {
    hide Login, Logout, NameTaken, IdOf, PacketsOn, AuthReply, NameOf, LiveAs, Good, IsLoginAnswer;
    var e1, e2, e3, fd := Request(j, takeover, true), Request(i, q, true), Request(i, p, true), s.sessions[i].fd;
    LoginStep(s, j, takeover, taken);
    var s1 := Step(s, e1);
    TakenOverIsOut(s, i, j, taken);
    LogoutStep(s1, i, q, true);
    var s2 := Step(s1, e2);
    LoginStep(s2, i, p, name);
    ThreeEvents(s, e1, e2, e3);
    SocketsDiffer(s, i, j);
    NotedOnce(s, i, j, takeover, q, p, name, book);
    hide Step, Run, Runs, Logins;
    first := OthersLoginPackets(s, j, taken, fd);
    RefusedLogoutPackets(s1, i);
    ps := LoginPackets(s2, i, name);
    LoginTakesOver(s2, i, name, true, fd);
    LookupOfGood(s, name);
  }

  lemma NotedOnce(s: State, i: nat, j: nat, takeover: Packet, q: Packet, p: Packet, name: string, book: seq<string>)
    requires i < |s.sessions| && j < |s.sessions| && s.sessions[j].fd != s.sessions[i].fd && IsLogout(q) && IsLogin(p, name)
    requires var e1, e2, e3 := Request(j, takeover, true), Request(i, q, true), Request(i, p, true);
             && Enabled(Step(s, e1), e2) && Enabled(Step(Step(s, e1), e2), e3) && Runs(s, [e1, e2, e3])
             && Step(Step(s, e1), e2).sessions[i].fd == s.sessions[i].fd
    ensures Logins(s, [Request(j, takeover, true), Request(i, q, true), Request(i, p, true)], s.sessions[i].fd, book) == book + [name]
  {
    hide Step;
    var e1, e2, e3, fd := Request(j, takeover, true), Request(i, q, true), Request(i, p, true), s.sessions[i].fd;
    var s1, s2 := Step(s, e1), Step(Step(s, e1), e2);
    assert [e1, e2, e3][1..] == [e2, e3] && [e2, e3][1..] == [e3] && [e3][1..] == [];
    assert Logins(s, [e1, e2, e3], fd, book) == Logins(s1, [e2, e3], fd, book);
    assert Logins(s1, [e2, e3], fd, book) == Logins(s2, [e3], fd, book);
    assert Logins(s2, [e3], fd, book) == Logins(Step(s2, e3), [], fd, book + [name]);
  }

  /**
   The second failing run.  The user of connection `i` logs out just as a login elsewhere takes the session
   over.  The client is told of the takeover, its user types a name and submits it, and only then the refusal
   of the logout arrives and empties the form: the answer to the login finds no name.
   */
  lemma CrossingLogout(s: State, i: nat, j: nat, takeover: Packet, taken: string, q: Packet, p: Packet, name: string,
                       book: seq<string>, xs: seq<Input>)
    returns (first: seq<Packet>, rest: seq<Packet>)
    requires Good(s) && i < |s.sessions| && j < |s.sessions| && i != j
    requires s.sessions[i].authenticated && NameTaken(s.users, taken) && s.sessions[i].id == IdOf(s.users, taken)
    requires IsLogin(takeover, taken) && IsLogout(q)
    requires IsLogin(p, name) && NameTaken(s.users, name) && name != "" && |name| <= NAME_LEN
    requires IsHistory(xs, s, s.sessions[i].fd, book) && book == Submitted(xs) && Heard(xs).answers == |book|
    ensures var es, fd := [Request(j, takeover, true), Request(i, q, true), Request(i, p, true)], s.sessions[i].fd;
            var ys := xs + Arrive(first) + Enters(name, 1) + Arrive(rest);
            && Runs(s, es)
            && var s3 := Run(s, es);
            && Logins(s, es, fd, book) == book + [name] && IsHistory(ys, s3, fd, book + [name])
            && LiveAs(s3, fd, IdOf(s.users, name)) && NameOf(s3.users, IdOf(s.users, name)) == name
            && Client(ys).Me() == Some("")
  {
    hide NameTaken, IdOf, Client, Heard, Submitted, OnTime, PacketsOn, AuthReply, NameOf, LiveAs, Good, Enters, Run, Runs, Logins, Arrive, IsLoginAnswer;
    var ps;
    first, ps := TakeoverLogoutLogin(s, i, j, takeover, taken, q, p, name, book);
    FarewellBetween(xs, name, first, ps);
    rest := [AuthReply(AUTH_LOGOUT, RESP_ERR_UNAUTHORIZED, "")] + (ps + [AuthReply(AUTH_LOGIN, RESP_OK, "")]);
  }

  lemma SocketsDiffer(s: State, i: nat, j: nat)
    requires Good(s) && i < |s.sessions| && j < |s.sessions| && i != j
    ensures s.sessions[i].fd != s.sessions[j].fd
  {
    OthersDiffer(s.sessions, s.users, i, j);
  }

  lemma ThreeEvents(s: State, e: Event, f: Event, g: Event)
    requires Enabled(s, e) && Enabled(Step(s, e), f) && Enabled(Step(Step(s, e), f), g)
    ensures Runs(s, [e, f, g]) && Run(s, [e, f, g]) == Step(Step(Step(s, e), f), g)
  {
    TwoEvents(Step(s, e), f, g);
    hide Step, Enabled;
    assert [e, f, g][0] == e && [e, f, g][1..] == [f, g];
  }
}
