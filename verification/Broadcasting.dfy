/**
 Channel messages as a broadcast: every connection hears the same messages in the same order, and
 the history of a channel is what its members said in it.
 */
module Broadcasting {
  import opened Names
  import opened Protocol
  import opened Friends
  import Store
  import opened Listing
  import opened Server
  import opened Invariants
  import opened Traffic
  import opened Lifecycle

  // ------------------------------------------------------------ what is said

  /** A message that goes to everybody: whether its sender was logged in, and whether there was a channel of that id. */
  datatype Posting = Posting(packet: Packet, identified: bool, placed: bool)

  function PostingOf(s: State, e: Event): (ps: seq<Posting>)
    requires Enabled(s, e)
    ensures |ps| <= 1 && forall x :: x in ps ==> IsMessage(x.packet)
  {
    if e.Request? && IsMessage(e.packet) then
      [Posting(Stamped(e.packet, s.sessions[e.i]), s.sessions[e.i].authenticated,
               e.packet.payload.channel in Store.ChannelIds(s.tables.channels))]
    else []
  }

  /** Everything that is said in a run, in order. */
  function Postings(s: State, es: seq<Event>): (ps: seq<Posting>)
    requires Runs(s, es)
    ensures forall x :: x in ps ==> IsMessage(x.packet)
    decreases |es|
  {
    if es == [] then [] else PostingOf(s, es[0]) + Postings(Step(s, es[0]), es[1..])
  }

  /** A message carries the id and the name of the user logged in on the connection it came from, or neither. */
  lemma StampIsTrue(s: State, e: Event, x: Posting)
    requires Good(s) && Enabled(s, e) && x in PostingOf(s, e)
    ensures x.packet.payload.text == e.packet.payload.text && x.packet.payload.channel == e.packet.payload.channel
    ensures if x.identified then x.packet.sender in s.Ids() && x.packet.payload.name == Truncated(NameOf(s.users, x.packet.sender), NAME_LEN)
            else x.packet.sender == 0 && x.packet.payload.name == ""
  {
    assert s.sessions[e.i] in s.sessions;
  }

  // ------------------------------------------------------------ what is heard

  predicate Connected(s: State, fd: int) {
    exists i :: 0 <= i < |s.sessions| && s.sessions[i].fd == fd
  }

  predicate StaysConnected(s: State, es: seq<Event>, fd: int)
    requires Runs(s, es)
    decreases |es|
  {
    Connected(s, fd) && (es == [] || StaysConnected(Step(s, es[0]), es[1..], fd))
  }

  predicate AsksForHistory(s: State, e: Event, fd: int)
    requires Enabled(s, e)
  {
    && e.Request? && s.sessions[e.i].fd == fd
    && e.packet.payload.Channel? && e.packet.payload.action == CHANNEL_HISTORY_REQUEST
  }

  /** The channel messages among the packets for one socket. */
  function MessagesFor(outs: seq<Out>, fd: int): seq<Packet> {
    if outs == [] then []
    else
      var o := outs[|outs| - 1];
      MessagesFor(outs[..|outs| - 1], fd) + if o.Sent? && o.fd == fd && IsMessage(o.packet) then [o.packet] else []
  }

  /** The channel messages that an event puts on a connection, apart from the history that it asked for. */
  function HeardIn(s: State, e: Event, fd: int): seq<Packet>
    requires Enabled(s, e)
  {
    if AsksForHistory(s, e, fd) then [] else MessagesFor(News(s.sent, Step(s, e).sent), fd)
  }

  function Heard(s: State, es: seq<Event>, fd: int): seq<Packet>
    requires Runs(s, es)
    decreases |es|
  {
    if es == [] then [] else HeardIn(s, es[0], fd) + Heard(Step(s, es[0]), es[1..], fd)
  }

  // ------------------------------------------------------------ one broadcast

  lemma {:induction false} MessagesAppend(a: seq<Out>, b: seq<Out>, fd: int)
    ensures MessagesFor(a + b, fd) == MessagesFor(a, fd) + MessagesFor(b, fd)
  {
    if b == [] {
      assert a + b == a;
    } else {
      MessagesAppend(a, b[..|b| - 1], fd);
      assert (a + b)[..|a + b| - 1] == a + b[..|b| - 1];
    }
  }

  lemma {:induction false} NoMessages(outs: seq<Out>, fd: int)
    requires forall o :: o in outs && o.Sent? && o.fd == fd ==> !IsMessage(o.packet)
    ensures MessagesFor(outs, fd) == []
  {
    if outs != [] {
      NoMessages(outs[..|outs| - 1], fd);
    }
  }

  lemma OneMessage(fd: int, p: Packet, other: int)
    ensures MessagesFor([Sent(fd, p)], other) == if fd == other && IsMessage(p) then [p] else []
  {}

  /** A broadcast reaches each connection once. */
  lemma {:induction false} BroadcastReaches(sessions: seq<Session>, users: seq<UserRow>, p: Packet, n: nat, k: nat)
    requires SessionsOk(sessions, users) && n <= |sessions| && k < |sessions| && IsMessage(p)
    ensures MessagesFor(Broadcast(sessions, p, n), sessions[k].fd) == if k < n then [p] else []
  {
    hide IsMessage, MessagesFor;
    if n > 0 {
      var fd := sessions[k].fd;
      var outs := if sessions[n - 1].fd > 0 then [Sent(sessions[n - 1].fd, p)] else [];
      BroadcastReaches(sessions, users, p, n - 1, k);
      assert sessions[n - 1] in sessions;
      var differ := SessionsDiffer(sessions[k], sessions[n - 1]) || SessionsDiffer(sessions[n - 1], sessions[k]);
      MessagesAppend(Broadcast(sessions, p, n - 1), outs, fd);
      OneMessage(sessions[n - 1].fd, p, fd);
    } else {
      NoMessages([], sessions[k].fd);
    }
  }

  // ------------------------------------------------------------ every event

  /** The log grows, by packets among which `fd` gets exactly the given messages. */
  ghost predicate Adds(a: seq<Out>, b: seq<Out>, fd: int, ps: seq<Packet>) {
    a <= b && MessagesFor(News(a, b), fd) == ps
  }

  /** The log grows without a message for `fd`. */
  ghost predicate Silent(a: seq<Out>, b: seq<Out>, fd: int) {
    a <= b && forall k :: |a| <= k < |b| && b[k].Sent? && b[k].fd == fd ==> !IsMessage(b[k].packet)
  }

  lemma AddsNothing(a: seq<Out>, b: seq<Out>, fd: int)
    requires Silent(a, b, fd)
    ensures Adds(a, b, fd, [])
  {
    NoMessages(News(a, b), fd);
    hide MessagesFor;
  }

  lemma OtherKindsAddNothing(a: seq<Out>, b: seq<Out>, kind: Kind, fd: int)
    requires AsideLog(a, b, kind) && !kind.Channels?
    ensures Adds(a, b, fd, [])
  {
    AddsNothing(a, b, fd);
    hide Adds;
  }

  lemma AccountsAreSilent(a: seq<Out>, b: seq<Out>, fd: int)
    requires AccountLog(a, b)
    ensures Silent(a, b, fd)
  {}

  lemma ChannelAdds(s: State, i: nat, p: Packet, hashOk: bool, fd: int)
    requires Good(s) && i < |s.sessions| && p.payload.Channel? && Connected(s, fd)
    requires !AsksForHistory(s, Request(i, p, hashOk), fd)
    ensures Adds(s.sent, HandleChannel(s, i, p).sent, fd, if IsMessage(p) then [Stamped(p, s.sessions[i])] else [])
  {
    var c, q, s' := s.sessions[i], p.payload, HandleChannel(s, i, p);
    hide Store.Perform, Good, ChannelStream, Broadcast, MessagesFor;
    if q.action == CHANNEL_MESSAGE {
      var k :| 0 <= k < |s.sessions| && s.sessions[k].fd == fd;
      BroadcastReaches(s.sessions, s.users, Stamped(p, c), |s.sessions|, k);
      NewsOf(s.sent, Broadcast(s.sessions, Stamped(p, c), |s.sessions|));
    } else if q.action == CHANNEL_HISTORY_REQUEST {
      IntoFd(c.fd, ChannelStream(s, q.channel));
      AddsNothing(s.sent, s'.sent, fd);
    } else {
      AddsNothing(s.sent, s'.sent, fd);
    }
  }

  lemma StepAdds(s: State, e: Event, fd: int)
    requires Good(s) && Enabled(s, e) && Connected(s, fd) && !AsksForHistory(s, e, fd)
    ensures Adds(s.sent, Step(s, e).sent, fd, Map((x: Posting) => x.packet, PostingOf(s, e)))
  {
    hide Good, Connected, Adds, HandleAuth, HandleDm, HandleServer, HandleChannel, HandleSocial, Announce;
    var s', said := Step(s, e), Map((x: Posting) => x.packet, PostingOf(s, e));
    match e
    case Accept(_) => AddsNothing(s.sent, s'.sent, fd);
    case Hangup(i) =>
      var s1 := s.(sessions := s.sessions[..i] + s.sessions[i + 1..]);
      AnnounceLog(s1, s.sessions[i].id);
      AccountsAreSilent(s.sent, Announce(s1, s.sessions[i].id).sent, fd);
      AddsNothing(s.sent, s'.sent, fd);
    case Request(i, p, hashOk) =>
      match p.payload
      case Auth(_, _, _, _) =>
        AuthLog(s, i, p, hashOk);
        AccountsAreSilent(s.sent, s'.sent, fd);
        AddsNothing(s.sent, s'.sent, fd);
      case Dm(_, _, _, _, _) =>
        DmAside(s, i, p);
        OtherKindsAddNothing(s.sent, s'.sent, Dms, fd);
      case Server(_, _, _, _, _, _) =>
        ServerAside(s, i, p);
        OtherKindsAddNothing(s.sent, s'.sent, Servers, fd);
      case Social(_, _, _, _, _, _) =>
        SocialAside(s, i, p);
        OtherKindsAddNothing(s.sent, s'.sent, Socials, fd);
      case Channel(_, _, _, _, _, _, _) =>
        ChannelAdds(s, i, p, hashOk, fd);
        assert said == if IsMessage(p) then [Stamped(p, s.sessions[i])] else [];
  }

  lemma HeardInStep(s: State, e: Event, fd: int)
    requires Good(s) && Enabled(s, e) && Connected(s, fd)
    ensures HeardIn(s, e, fd) == Map((x: Posting) => x.packet, PostingOf(s, e))
  {
    hide Good, Connected, Step;
    if !AsksForHistory(s, e, fd) {
      StepAdds(s, e, fd);
    }
  }

  lemma MapAppend<T, U>(f: T -> U, a: seq<T>, b: seq<T>)
    ensures Map(f, a + b) == Map(f, a) + Map(f, b)
  {}

  /** Total order: a connection that stays hears exactly what is said, in the order in which it is said. */
  lemma {:induction false} EveryoneHearsTheSame(s: State, es: seq<Event>, fd: int)
    requires Good(s) && Runs(s, es) && StaysConnected(s, es, fd)
    ensures Heard(s, es, fd) == Map((x: Posting) => x.packet, Postings(s, es))
    decreases |es|
  {
    hide Good, Step, Connected, PostingOf, HeardIn;
    if es != [] {
      HeardInStep(s, es[0], fd);
      MapAppend((x: Posting) => x.packet, PostingOf(s, es[0]), Postings(Step(s, es[0]), es[1..]));
      StepKeepsGood(s, es[0]);
      EveryoneHearsTheSame(Step(s, es[0]), es[1..], fd);
    }
  }

  /** So any two connections that stay hear the same. */
  lemma AnyTwoHearTheSame(s: State, es: seq<Event>, a: int, b: int)
    requires Good(s) && Runs(s, es) && StaysConnected(s, es, a) && StaysConnected(s, es, b)
    ensures Heard(s, es, a) == Heard(s, es, b)
  {
    EveryoneHearsTheSame(s, es, a);
    EveryoneHearsTheSame(s, es, b);
  }

  // ------------------------------------------------------------ what is remembered

  /** The channel is there in every state of the run. */
  predicate ChannelLives(s: State, es: seq<Event>, channel: int)
    requires Runs(s, es)
    decreases |es|
  {
    channel in Store.ChannelIds(s.tables.channels) && (es == [] || ChannelLives(Step(s, es[0]), es[1..], channel))
  }

  /** Who said what. */
  datatype Saying = Saying(user: int, text: string)

  function Remembered(s: State, channel: int): seq<Saying> {
    Map((m: Store.MessageRow) => Saying(m.user, m.text), Store.HistoryOf(s.tables, channel))
  }

  /** The messages of logged-in senders to one channel. */
  function SaidIn(ps: seq<Posting>, channel: int): seq<Saying>
    decreases |ps|
  {
    if ps == [] then [] else Said(ps[0], channel) + SaidIn(ps[1..], channel)
  }

  function Said(x: Posting, channel: int): seq<Saying> {
    if x.identified && x.packet.payload.Channel? && x.packet.payload.channel == channel
    then [Saying(x.packet.sender, x.packet.payload.text)] else []
  }

  lemma {:induction false} SaidInAppend(a: seq<Posting>, b: seq<Posting>, channel: int)
    ensures SaidIn(a + b, channel) == SaidIn(a, channel) + SaidIn(b, channel)
    decreases |a|
  {
    hide Said;
    if a == [] {
      assert a + b == b;
    } else {
      SaidInAppend(a[1..], b, channel);
      assert (a + b)[1..] == a[1..] + b && (a + b)[0] == a[0];
      assert SaidIn(a + b, channel) == Said(a[0], channel) + SaidIn(a[1..] + b, channel);
    }
  }

  lemma StepRemembers(s: State, e: Event, channel: int)
    requires Good(s) && Enabled(s, e)
    requires channel in Store.ChannelIds(s.tables.channels) && channel in Store.ChannelIds(Step(s, e).tables.channels)
    ensures Remembered(Step(s, e), channel) == Remembered(s, channel) + SaidIn(PostingOf(s, e), channel)
  {
    hide Step, Store.Perform, Good, NextId;
    var ops := TableOp(s, e);
    GoodChannels(s);
    StepPerforms(s, e);
    if ops != [] {
      Store.PerformExtendsHistory(ops[0], s.tables, channel);
    }
    if e.Request? {
      KnownWhenIdentified(s, e.i);
    }
  }

  lemma KnownWhenIdentified(s: State, i: nat)
    requires Good(s) && i < |s.sessions|
    ensures s.sessions[i].id in s.Ids() <==> s.sessions[i].authenticated
  {
    assert s.sessions[i] in s.sessions;
    UserIdIn(s.users);
  }

  /**
   Persistence: while a channel lives, its stored history grows by exactly the broadcasts that logged-in
   users made in it, in the order in which everybody heard them.
   */
  lemma {:induction false} HistoryIsWhatWasSaid(s: State, es: seq<Event>, channel: int)
    requires Good(s) && Runs(s, es) && ChannelLives(s, es, channel)
    ensures Remembered(Run(s, es), channel) == Remembered(s, channel) + SaidIn(Postings(s, es), channel)
    decreases |es|
  {
    hide Good, Step, Remembered, PostingOf;
    if es == [] {
      assert Remembered(s, channel) + [] == Remembered(s, channel);
    } else {
      var s1 := Step(s, es[0]);
      StepRemembers(s, es[0], channel);
      StepKeepsGood(s, es[0]);
      HistoryIsWhatWasSaid(s1, es[1..], channel);
      SaidInAppend(PostingOf(s, es[0]), Postings(s1, es[1..]), channel);
    }
  }

  // ------------------------------------------------------------ the whole table

  /** A message as the table keeps it. */
  datatype Entry = Entry(channel: int, user: int, text: string)

  function Table(s: State): seq<Entry> {
    Map((m: Store.MessageRow) => Entry(m.channel, m.user, m.text), s.tables.messages)
  }

  /** The broadcasts that can be stored, in their order: the sender was logged in and the channel was there. */
  function Stored(ps: seq<Posting>): seq<Entry>
    decreases |ps|
  {
    if ps == [] then [] else StoredOf(ps[0]) + Stored(ps[1..])
  }

  function StoredOf(x: Posting): seq<Entry> {
    if x.identified && x.placed && x.packet.payload.Channel?
    then [Entry(x.packet.payload.channel, x.packet.sender, x.packet.payload.text)] else []
  }

  lemma {:induction false} StoredAppend(a: seq<Posting>, b: seq<Posting>)
    ensures Stored(a + b) == Stored(a) + Stored(b)
    decreases |a|
  {
    hide StoredOf;
    if a == [] {
      assert a + b == b;
    } else {
      StoredAppend(a[1..], b);
      assert (a + b)[1..] == a[1..] + b && (a + b)[0] == a[0];
      assert Stored(a + b) == StoredOf(a[0]) + Stored(a[1..] + b);
    }
  }

  /** No event of the run takes a channel away. */
  ghost predicate ChannelsLive(s: State, es: seq<Event>)
    requires Runs(s, es)
    decreases |es|
  {
    es == [] || (Store.ChannelsStay(s.tables, Step(s, es[0]).tables) && ChannelsLive(Step(s, es[0]), es[1..]))
  }

  lemma StepFillsTable(s: State, e: Event)
    requires Good(s) && Enabled(s, e) && Store.ChannelsStay(s.tables, Step(s, e).tables)
    ensures Table(Step(s, e)) == Table(s) + Stored(PostingOf(s, e))
  {
    hide Step, Store.Perform, Good, NextId, Store.ChannelsStay;
    var ops := TableOp(s, e);
    GoodChannels(s);
    StepPerforms(s, e);
    if ops != [] {
      Store.PerformExtendsMessages(ops[0], s.tables);
    }
    if e.Request? {
      KnownWhenIdentified(s, e.i);
    }
  }

  /**
   The whole table: in a run that takes no channel away, the messages of all channels together grow by
   exactly the broadcasts that can be stored, in the one order in which everybody heard them.
   */
  lemma {:induction false} TableIsWhatWasSaid(s: State, es: seq<Event>)
    requires Good(s) && Runs(s, es) && ChannelsLive(s, es)
    ensures Table(Run(s, es)) == Table(s) + Stored(Postings(s, es))
    decreases |es|
  {
    hide Good, Step, Table, PostingOf;
    if es == [] {
      assert Table(s) + [] == Table(s);
    } else {
      var s1 := Step(s, es[0]);
      StepFillsTable(s, es[0]);
      StepKeepsGood(s, es[0]);
      TableIsWhatWasSaid(s1, es[1..]);
      StoredAppend(PostingOf(s, es[0]), Postings(s1, es[1..]));
    }
  }
}
