/** Direct-message transcripts: what two friends see of their conversation after they reload it. */
module Transcript {
  import opened Names
  import opened Protocol
  import opened Friends
  import Store
  import opened Listing
  import opened ClientView
  import opened Server
  import opened Invariants
  import opened Traffic
  import opened FriendView
  import opened OwnName
  import opened LoginForm

  // ------------------------------------------------------------ the reference

  /** A conversation as it should read: each message under the name of its author, as far as a client has room. */
  function Conversation(users: seq<UserRow>, rows: seq<DmRow>): seq<Message> {
    Map((m: DmRow) => Message(Truncated(NameOf(users, m.sender), NAME_LEN), Truncated(m.text, BODY_LEN)), rows)
  }

  /** The transcript that a client shows for the friend `id`, if the friend has a slot. */
  function TranscriptOf(v: View, id: int): Option<seq<Message>>
    requires v.friendCount <= |v.slots|
  {
    if SlotFor(v, id) < 0 then None else Some(v.slots[SlotFor(v, id)].messages)
  }

  /** The place of the friend among the shown slots, or -1. */
  function SlotFor(v: View, id: int): (k: int)
    requires v.friendCount <= |v.slots|
    ensures -1 <= k < v.friendCount
  {
    SlotOf(v.slots, id, id, v.friendCount)
  }

  // ------------------------------------------------------------ the history of a pair

  lemma {:induction false} FilterKeepsOrder(keep: DmRow -> bool, dms: seq<DmRow>)
    requires forall i, j :: 0 <= i < j < |dms| ==> dms[i].id < dms[j].id
    ensures var r := Filter(keep, dms); forall i, j :: 0 <= i < j < |r| ==> r[i].id < r[j].id
  {
    FilterKeepsPairwise((a: DmRow, b: DmRow) => a.id < b.id, keep, dms);
  }

  /** The history is the last 50 messages of the two, all if there are fewer, in ascending id order, the same for both. */
  lemma HistoryOfPair(dms: seq<DmRow>, a: int, b: int)
    requires forall i, j :: 0 <= i < j < |dms| ==> dms[i].id < dms[j].id
    ensures var h, all := History(dms, a, b), Filter((m: DmRow) => m.Between(a, b), dms);
            && h == History(dms, b, a)
            && |h| == (if |all| < HISTORY_LIMIT then |all| else HISTORY_LIMIT) && h == all[|all| - |h|..]
            && (forall m :: m in all <==> m in dms && m.Between(a, b))
            && (forall i, j :: 0 <= i < j < |h| ==> h[i].id < h[j].id)
  {
    var all := Filter((m: DmRow) => m.Between(a, b), dms);
    FilterMembers((m: DmRow) => m.Between(a, b), dms);
    FilterSame((m: DmRow) => m.Between(a, b), (m: DmRow) => m.Between(b, a), dms);
    FilterKeepsOrder((m: DmRow) => m.Between(a, b), dms);
    hide Filter;
  }

  // ------------------------------------------------------------ the stream of a reload

  /** The line that a client adds to slot `s` for a message that carries the given sender. */
  function LineOf(s: Slot, me: Option<string>, sender: int, text: string): Message {
    var author := if sender == s.id then s.name else if me.Some? then me.value else "Me";
    Message(Truncated(author, NAME_LEN), Truncated(text, BODY_LEN))
  }

  function LinesOf(users: seq<UserRow>, c: Session, friend: int, s: Slot, me: Option<string>, rows: seq<DmRow>): (ms: seq<Message>)
    ensures |ms| == |rows|
  {
    seq(|rows|, j requires 0 <= j < |rows| =>
      var p := DmPacket(users, c, friend, rows[j], j);
      LineOf(s, me, p.sender, p.payload.text))
  }

  /** The client has a slot for the friend, and none before it belongs to its own user or to nobody. */
  predicate HasPlace(v: View, me: int, friend: int)
    requires v.friendCount <= |v.slots|
  {
    SlotFor(v, friend) >= 0 && forall i :: 0 <= i < SlotFor(v, friend) ==> v.slots[i].id != me && v.slots[i].id != 0
  }

  /** Every packet of the stream finds the slot of the friend, although it is matched on sender or recipient. */
  lemma PacketsFindSlot(v: View, c: Session, friend: int, sender: int)
    requires ViewOk(v) && HasPlace(v, c.id, friend) && (sender == 0 || sender == c.id || sender == friend)
    ensures SlotOf(v.slots, sender, friend, v.friendCount) == SlotFor(v, friend)
  {}

  /** The view with the messages of one slot replaced. */
  function WithMessages(v: View, k: nat, ms: seq<Message>): View
    requires k < |v.slots|
  {
    v.(slots := v.slots[k := v.slots[k].(messages := ms)])
  }

  lemma StartClearsSlot(v: View, c: Session, friend: int)
    requires ViewOk(v) && HasPlace(v, c.id, friend)
    ensures Apply(v, DmFrame(LIST_FRAME_START, friend)) == WithMessages(v, SlotFor(v, friend), [])
  {
    PacketsFindSlot(v, c, friend, 0);
    hide SlotOf;
  }

  lemma EndKeepsSlots(v: View, friend: int)
    requires ViewOk(v)
    ensures Apply(v, DmFrame(LIST_FRAME_END, friend)) == v
  {}

  lemma ItemAddsLine(v: View, users: seq<UserRow>, c: Session, friend: int, m: DmRow, index: int)
    requires ViewOk(v) && HasPlace(v, c.id, friend) && |v.slots[SlotFor(v, friend)].messages| < MAX_MESSAGES
    ensures var k, p := SlotFor(v, friend), DmPacket(users, c, friend, m, index);
            Apply(v, p) == WithMessages(v, k, v.slots[k].messages + [LineOf(v.slots[k], v.Me(), p.sender, p.payload.text)])
  {
    PacketsFindSlot(v, c, friend, c.id);
    PacketsFindSlot(v, c, friend, friend);
    hide SlotOf;
  }

  lemma {:induction false} SameSlot(v: View, k: nat, ms: seq<Message>, friend: int, n: nat)
    requires k < |v.slots| && n <= |v.slots|
    ensures SlotOf(WithMessages(v, k, ms).slots, friend, friend, n) == SlotOf(v.slots, friend, friend, n)
  {
    if n > 0 {
      SameSlot(v, k, ms, friend, n - 1);
    }
  }

  lemma SamePlace(v: View, k: nat, ms: seq<Message>, me: int, friend: int)
    requires ViewOk(v) && k < |v.slots|
    ensures SlotFor(WithMessages(v, k, ms), friend) == SlotFor(v, friend)
    ensures HasPlace(WithMessages(v, k, ms), me, friend) == HasPlace(v, me, friend)
  {
    SameSlot(v, k, ms, friend, v.friendCount);
    hide SlotOf;
    var w := WithMessages(v, k, ms);
    forall i | 0 <= i < |v.slots| ensures w.slots[i].id == v.slots[i].id {}
  }

  /** After `j` items the slot of the friend holds `j` lines; there is room, because a history has at most 50. */
  lemma {:induction false} ItemsFillSlot(v: View, users: seq<UserRow>, c: Session, friend: int, rows: seq<DmRow>, j: nat)
    requires ViewOk(v) && HasPlace(v, c.id, friend)
    requires v.slots[SlotFor(v, friend)].messages == [] && j <= |rows| <= HISTORY_LIMIT
    ensures var k := SlotFor(v, friend);
            ApplyAll(v, DmItems(users, c, friend, rows)[..j])
            == WithMessages(v, k, LinesOf(users, c, friend, v.slots[k], v.Me(), rows)[..j])
  {
    hide Apply, SlotFor, HasPlace, DmPacket, LineOf;
    PlaceIsThere(v, c.id, friend);
    var k, ps := SlotFor(v, friend), DmItems(users, c, friend, rows);
    var lines := LinesOf(users, c, friend, v.slots[k], v.Me(), rows);
    if j > 0 {
      ItemsFillSlot(v, users, c, friend, rows, j - 1);
      assert ps[..j][..j - 1] == ps[..j - 1];
      var before := WithMessages(v, k, lines[..j - 1]);
      SamePlace(v, k, lines[..j - 1], c.id, friend);
      ItemAddsLine(before, users, c, friend, rows[j - 1], j - 1);
      assert lines[..j] == lines[..j - 1] + [lines[j - 1]];
      SameLine(v.slots[k], lines[..j - 1], v.Me(), DmPacket(users, c, friend, rows[j - 1], j - 1));
    }
  }

  lemma PlaceIsThere(v: View, me: int, friend: int)
    requires ViewOk(v) && HasPlace(v, me, friend)
    ensures 0 <= SlotFor(v, friend) < |v.slots|
  {}

  lemma SameLine(s: Slot, ms: seq<Message>, me: Option<string>, p: Packet)
    requires p.payload.Dm?
    ensures LineOf(s.(messages := ms), me, p.sender, p.payload.text) == LineOf(s, me, p.sender, p.payload.text)
  {}

  /** A reload replaces the transcript of the friend by the history, line for line, and touches nothing else. */
  lemma ReloadShowsLines(v: View, users: seq<UserRow>, c: Session, friend: int, rows: seq<DmRow>)
    requires ViewOk(v) && HasPlace(v, c.id, friend) && |rows| <= HISTORY_LIMIT
    ensures var k := SlotFor(v, friend);
            ApplyAll(v, DmStream(users, c, friend, rows)) == WithMessages(v, k, LinesOf(users, c, friend, v.slots[k], v.Me(), rows))
  {
    hide ApplyAll, SlotFor, HasPlace, DmPacket, LineOf, Apply, DmFrame, DmItems;
    var k := SlotFor(v, friend);
    var start, items, end := [DmFrame(LIST_FRAME_START, friend)], DmItems(users, c, friend, rows), [DmFrame(LIST_FRAME_END, friend)];
    PlaceIsThere(v, c.id, friend);
    ApplyAppend(v, start + items, end);
    ApplyAppend(v, start, items);
    ApplyOne(v, start[0]);
    StartClearsSlot(v, c, friend);
    var v1 := WithMessages(v, k, []);
    SamePlace(v, k, [], c.id, friend);
    ItemsFillSlot(v1, users, c, friend, rows, |rows|);
    assert items[..|rows|] == items;
    var lines := LinesOf(users, c, friend, v1.slots[k], v.Me(), rows);
    assert lines[..|rows|] == lines;
    LinesIgnoreMessages(users, c, friend, v.slots[k], v.Me(), rows);
    var v2 := WithMessages(v1, k, lines);
    ApplyOne(v2, end[0]);
    EndKeepsSlots(v2, friend);
  }

  lemma LinesIgnoreMessages(users: seq<UserRow>, c: Session, friend: int, s: Slot, me: Option<string>, rows: seq<DmRow>)
    ensures LinesOf(users, c, friend, s.(messages := []), me, rows) == LinesOf(users, c, friend, s, me, rows)
  {}

  // ------------------------------------------------------------ true authors

  /** A history packet names the true author exactly when the two names cannot be confused: the server compares a name with a cut one. */
  lemma AuthorIsTrue(users: seq<UserRow>, c: Session, friend: int, m: DmRow, index: int)
    requires SessionOk(c, users) && c.authenticated && c.id != friend && m.Between(c.id, friend)
    ensures DmPacket(users, c, friend, m, index).sender == m.sender
            <==> if m.sender == c.id then |NameOf(users, c.id)| <= NAME_LEN else NameOf(users, friend) != Truncated(NameOf(users, c.id), NAME_LEN)
  {}

  lemma {:induction false} NamedUser(users: seq<UserRow>, id: int)
    requires id in UserIds(users)
    ensures exists u :: u in users && u.id == id && u.name == NameOf(users, id)
  {
    var front, last := users[..|users| - 1], users[|users| - 1];
    if last.id != id {
      var k :| 0 <= k < |users| && UserIds(users)[k] == id;
      assert UserIds(front)[k] == id;
      NamedUser(front, id);
    }
  }

  lemma NamesDiffer(users: seq<UserRow>, a: int, b: int)
    requires UsersOk(users) && a in UserIds(users) && b in UserIds(users) && a != b
    ensures NameOf(users, a) != NameOf(users, b)
  {
    NamedUser(users, a);
    NamedUser(users, b);
    var u :| u in users && u.id == a && u.name == NameOf(users, a);
    var v :| v in users && v.id == b && v.name == NameOf(users, b);
    if u.name == v.name {
      OneUserPerId(users, u, v);
    }
  }

  lemma NestedCuts(t: string)
    ensures Truncated(Truncated(t, MESSAGE_LEN), BODY_LEN) == Truncated(t, BODY_LEN)
  {}

  /** Can the user see who wrote the messages of the conversation with the friend? */
  predicate CanTell(users: seq<UserRow>, me: int, friend: int, rows: seq<DmRow>) {
    || |NameOf(users, me)| <= NAME_LEN
    || Truncated(NameOf(users, me), NAME_LEN) == Truncated(NameOf(users, friend), NAME_LEN)
    || forall m :: m in rows ==> m.sender != me
  }

  lemma LineIsTrue(users: seq<UserRow>, c: Session, friend: int, s: Slot, m: DmRow, index: int)
    requires UsersOk(users) && SessionOk(c, users) && c.authenticated && c.id != friend && friend in UserIds(users) && m.Between(c.id, friend)
    requires s.id == friend && s.name == Truncated(NameOf(users, friend), NAME_LEN)
    ensures var p := DmPacket(users, c, friend, m, index);
            LineOf(s, Some(Truncated(NameOf(users, c.id), NAME_LEN)), p.sender, p.payload.text)
              == Message(Truncated(NameOf(users, m.sender), NAME_LEN), Truncated(m.text, BODY_LEN))
            <==> CanTell(users, c.id, friend, [m])
  {
    NamesDiffer(users, c.id, friend);
    AuthorIsTrue(users, c, friend, m, index);
    NestedCuts(m.text);
    CutTwice(NameOf(users, c.id));
    CutTwice(NameOf(users, friend));
    assert [m][0] == m;
    hide NameOf, UserIds;
  }

  lemma CutTwice(t: string)
    ensures Truncated(Truncated(t, NAME_LEN), NAME_LEN) == Truncated(t, NAME_LEN)
    ensures |t| <= NAME_LEN <==> Truncated(t, NAME_LEN) == t
  {}

  /** The lines of a reload are the conversation exactly when the user can see who wrote what. */
  lemma LinesAreConversation(users: seq<UserRow>, c: Session, friend: int, s: Slot, rows: seq<DmRow>)
    requires UsersOk(users) && SessionOk(c, users) && c.authenticated && c.id != friend && friend in UserIds(users)
    requires s.id == friend && s.name == Truncated(NameOf(users, friend), NAME_LEN)
    requires forall m :: m in rows ==> m.Between(c.id, friend)
    ensures LinesOf(users, c, friend, s, Some(Truncated(NameOf(users, c.id), NAME_LEN)), rows) == Conversation(users, rows)
            <==> CanTell(users, c.id, friend, rows)
  {
    var lines, talk := LinesOf(users, c, friend, s, Some(Truncated(NameOf(users, c.id), NAME_LEN)), rows), Conversation(users, rows);
    forall j | 0 <= j < |rows| ensures lines[j] == talk[j] <==> CanTell(users, c.id, friend, [rows[j]]) {
      assert rows[j] in rows;
      LineIsTrue(users, c, friend, s, rows[j], j);
    }
    hide SessionOk, UsersOk, UserIds, NameOf, LineOf, Truncated, DmPacket;
    if lines == talk {
      forall m | m in rows ensures CanTell(users, c.id, friend, [m]) {
        var j :| 0 <= j < |rows| && rows[j] == m;
        assert lines[j] == talk[j];
      }
      forall m | m in rows ensures CanTell(users, c.id, friend, []) || m.sender != c.id {
        assert [m][0] == m;
      }
    } else {
      var j :| 0 <= j < |rows| && lines[j] != talk[j];
      assert rows[j] in rows && [rows[j]][0] == rows[j];
    }
  }

  // ------------------------------------------------------------ fresh friend lists have the slots

  lemma ListedUsers(t: seq<FriendRow>, users: seq<UserRow>, me: int, e: FriendEntry)
    requires TableOk(t) && References(t, users) && e in FriendListing(t, users, me)
    ensures e.id != me && e.id in UserIds(users) && e.name == NameOf(users, e.id)
  {
    ListingShowsPairs(t, users, me, e);
    RowsOfPair(t, me, e.id);
    RowsOfPair(t, e.id, me);
    hide FriendListing, UserIds;
  }

  /** A shown slot belongs to another user, under the user's name. */
  lemma FreshSlot(s: State, v: View, user: int, i: nat)
    requires Good(s) && ViewOk(v) && FriendsShown(v) == FriendTruth(s, user) && i < v.friendCount
    ensures var slot := v.slots[i];
            slot.id != user && slot.id > 0 && slot.id in s.Ids() && slot.name == Truncated(NameOf(s.users, slot.id), NAME_LEN)
  {
    hide FriendListing, Good, NameOf, UserIds, FriendTruth;
    GoodTables(s);
    assert FriendsShown(v)[i] in FriendsShown(v);
    var e := TruthIsListed(s, user, FriendsShown(v)[i]);
    hide FriendsShown;
    ListedUsers(s.friends, s.users, user, e);
    PositiveId(s, e.id);
  }

  lemma TruthIsListed(s: State, user: int, x: FriendEntry) returns (e: FriendEntry)
    requires x in FriendTruth(s, user)
    ensures e in FriendListing(s.friends, s.users, user) && x == CutEntry(e)
  {
    e := FirstIsCut(FriendListing(s.friends, s.users, user), x);
  }

  lemma PositiveId(s: State, id: int)
    requires Good(s) && id in UserIds(s.users)
    ensures id > 0
  {}

  /** A client with the view `v` on connection `i` can place the messages of the conversation with the friend under both names. */
  ghost predicate Ready(s: State, i: nat, friend: int, v: View)
    requires i < |s.sessions|
  {
    var c := s.sessions[i];
    && ViewOk(v) && c.authenticated && friend != c.id && friend in s.Ids()
    && HasPlace(v, c.id, friend) && v.slots[SlotFor(v, friend)].name == Truncated(NameOf(s.users, friend), NAME_LEN)
    && v.Me() == Some(Truncated(NameOf(s.users, c.id), NAME_LEN))
  }

  /** A client that shows its friends as they are, among them the friend, has a place for it. */
  lemma FreshHasPlace(s: State, i: nat, friend: int, v: View)
    requires Good(s) && i < |s.sessions| && s.sessions[i].authenticated && Lists(s, s.sessions[i].id, friend)
    requires ViewOk(v) && FriendsShown(v) == FriendTruth(s, s.sessions[i].id)
    ensures friend != s.sessions[i].id && friend in s.Ids() && HasPlace(v, s.sessions[i].id, friend)
    ensures v.slots[SlotFor(v, friend)].name == Truncated(NameOf(s.users, friend), NAME_LEN)
  {
    hide SlotOf, Good, NameOf, UserIds, FriendTruth;
    var c := s.sessions[i];
    forall j | 0 <= j < v.friendCount
      ensures v.slots[j].id != c.id && v.slots[j].id > 0
      ensures v.slots[j].id in s.Ids() && v.slots[j].name == Truncated(NameOf(s.users, v.slots[j].id), NAME_LEN)
    {
      FreshSlot(s, v, c.id, j);
    }
    var e :| e in FriendTruth(s, c.id) && e.id == friend;
    var j :| 0 <= j < |FriendsShown(v)| && FriendsShown(v)[j] == e;
    assert v.slots[j].id == friend;
  }

  lemma ClientShowsFriends(xs: seq<Input>, s: State, fd: int, user: int)
    requires Arrivals(xs) == PacketsOn(s.sent, fd) && Fresh(s, fd, user)
    ensures FriendsShown(Client(xs)) == FriendTruth(s, user)
  {
    hide SameShown, FriendsShown, FriendTruth, ViewOf;
    ClientShowsView(xs, s.sent, fd);
    SameFriendsShown(Client(xs), ViewOf(s.sent, fd));
  }

  /** A client that has been sent its friends as they are, among them the friend, is ready exactly if its form held its name until the answer came. */
  lemma FreshIsReady(s: State, i: nat, friend: int, xs: seq<Input>, book: seq<string>)
    requires Good(s) && i < |s.sessions| && s.sessions[i].authenticated && Lists(s, s.sessions[i].id, friend)
    requires var c := s.sessions[i]; Fresh(s, c.fd, c.id) && BookOk(s, c.fd, book) && IsHistory(xs, s, c.fd, book) && NamesFit(xs)
    ensures Ready(s, i, friend, Client(xs)) <==> FormHeld(xs)
  {
    hide Client, SlotFor, HasPlace, Good, NameOf, UserIds, FriendTruth, FriendsShown, Fresh, Lists, BookOk, FormHeld, OnTime, Submitted;
    var c := s.sessions[i];
    assert LiveAs(s, c.fd, c.id);
    ClientShowsFriends(xs, s, c.fd, c.id);
    FreshHasPlace(s, i, friend, Client(xs));
    OwnNameIfHeld(s, c.fd, c.id, book, xs);
  }

  // ------------------------------------------------------------ one reload

  predicate IsReload(p: Packet, friend: int) {
    p.payload.Dm? && p.payload.action == DM_HISTORY_REQUEST && p.payload.recipient == friend
  }

  /**
   What happens to the client of a socket while the log goes from `a` to `b`: everything sent on the socket in
   that time arrives, with any edits and submissions of its user in between.
   */
  ghost predicate Receives(ys: seq<Input>, a: seq<Out>, b: seq<Out>, fd: int) {
    Arrivals(ys) == PacketsFor(News(a, b), fd)
  }

  lemma StreamArrives(v: View, ys: seq<Input>, sent: seq<Out>, fd: int, ps: seq<Packet>)
    requires ViewOk(v) && Receives(ys, sent, sent + Into(fd, ps), fd) && forall p :: p in ps ==> !p.payload.Auth?
    ensures AdvanceAll(v, ys) == ApplyAll(v, ps).(form := AdvanceAll(v, ys).form)
  {
    hide Into, AdvanceAll, ApplyAll, Arrivals;
    NewsOf(sent, Into(fd, ps));
    PacketsForInto(fd, ps);
    TypingKeepsAllButForm(v, ys);
  }

  lemma DmStreamIsDms(users: seq<UserRow>, c: Session, friend: int, rows: seq<DmRow>)
    ensures forall p :: p in DmStream(users, c, friend, rows) ==> p.payload.Dm?
  {}

  lemma FormIsNoTranscript(v: View, form: string, id: int)
    requires v.friendCount <= |v.slots|
    ensures SlotFor(v.(form := form), id) == SlotFor(v, id) && TranscriptOf(v.(form := form), id) == TranscriptOf(v, id)
  {
    hide SlotOf;
  }

  /** After a reload the client shows the conversation, each line under the true name, exactly when the user can tell who wrote what. */
  lemma ReloadShowsConversation(s: State, i: nat, p: Packet, hashOk: bool, friend: int, v: View, ys: seq<Input>)
    requires Good(s) && i < |s.sessions| && IsReload(p, friend) && Ready(s, i, friend, v)
    requires Receives(ys, s.sent, Step(s, Request(i, p, hashOk)).sent, s.sessions[i].fd)
    ensures var c, s', rows := s.sessions[i], Step(s, Request(i, p, hashOk)), History(s.dms, s.sessions[i].id, friend);
            var v' := AdvanceAll(v, ys);
            && SlotFor(v', friend) == SlotFor(v, friend) >= 0
            && v' == WithMessages(v, SlotFor(v, friend), v'.slots[SlotFor(v, friend)].messages).(form := v'.form)
            && (TranscriptOf(v', friend) == Some(Conversation(s.users, rows)) <==> CanTell(s.users, c.id, friend, rows))
            && s' == s.SendAll(Into(c.fd, DmStream(s.users, c, friend, rows)))
  {
    hide SlotOf, SlotFor, HasPlace, Good, DmStream, LinesOf, Conversation, FriendsShown, ApplyAll, CanTell, NameOf, UserIds, AdvanceAll, Receives, Into;
    var c, rows := s.sessions[i], History(s.dms, s.sessions[i].id, friend);
    var k, stream := SlotFor(v, friend), DmStream(s.users, c, friend, rows);
    GoodPair(s, i, friend);
    PlaceIsThere(v, c.id, friend);
    SlotIsOf(v, friend);
    DmStreamIsDms(s.users, c, friend, rows);
    StreamArrives(v, ys, s.sent, c.fd, stream);
    ReloadShowsLines(v, s.users, c, friend, rows);
    LinesAreConversation(s.users, c, friend, v.slots[k], rows);
    SamePlace(v, k, LinesOf(s.users, c, friend, v.slots[k], v.Me(), rows), c.id, friend);
    FormIsNoTranscript(ApplyAll(v, stream), AdvanceAll(v, ys).form, friend);
  }

  lemma SlotIsOf(v: View, friend: int)
    requires ViewOk(v) && SlotFor(v, friend) >= 0
    ensures v.slots[SlotFor(v, friend)].id == friend
  {}

  lemma GoodPair(s: State, i: nat, friend: int)
    requires Good(s) && i < |s.sessions|
    ensures UsersOk(s.users) && SessionOk(s.sessions[i], s.users)
    ensures var rows := History(s.dms, s.sessions[i].id, friend);
            |rows| <= HISTORY_LIMIT && forall m :: m in rows ==> m.Between(s.sessions[i].id, friend)
  {
    assert s.sessions[i] in s.sessions;
    HistoryMembers(s.dms, s.sessions[i].id, friend);
  }

  lemma HistoryMembers(dms: seq<DmRow>, a: int, b: int)
    ensures |History(dms, a, b)| <= HISTORY_LIMIT && forall m :: m in History(dms, a, b) ==> m.Between(a, b)
  {
    var all := Filter((m: DmRow) => m.Between(a, b), dms);
    FilterMembers((m: DmRow) => m.Between(a, b), dms);
    hide Filter;
    forall m | m in Last(all, HISTORY_LIMIT) ensures m in all {}
  }

  // ------------------------------------------------------------ what a friend list does to transcripts

  /** The first entry with the id, or -1. */
  function PlaceOf(es: seq<FriendEntry>, id: int): (k: int)
    ensures -1 <= k < |es| && (k >= 0 ==> es[k].id == id)
    ensures forall i :: 0 <= i < (if k >= 0 then k else |es|) ==> es[i].id != id
  {
    if es == [] then -1
    else
      var k := PlaceOf(es[..|es| - 1], id);
      if k >= 0 then k else if es[|es| - 1].id == id then |es| - 1 else -1
  }

  /** The slot of a friend is the place of its entry among those shown. */
  lemma SlotIsPlace(v: View, id: int)
    requires ViewOk(v)
    ensures SlotFor(v, id) == PlaceOf(FriendsShown(v), id)
  {
    hide SlotOf, PlaceOf;
    assert forall i :: 0 <= i < v.friendCount ==> FriendsShown(v)[i].id == v.slots[i].id;
  }

  /** Both views hold the same messages in slot `k`. */
  predicate SameMessages(v: View, w: View, k: nat)
    requires k < |v.slots| && k < |w.slots|
  {
    v.slots[k].messages == w.slots[k].messages
  }

  /** A packet other than a direct message leaves the messages of all slots alone. */
  lemma OthersKeepMessages(v: View, p: Packet, k: nat)
    requires ViewOk(v) && k < MAX_FRIENDS && !p.payload.Dm?
    ensures SameMessages(Apply(v, p), v, k)
  {}

  lemma {:induction false} StreamKeepsMessages(v: View, ps: seq<Packet>, k: nat)
    requires ViewOk(v) && k < MAX_FRIENDS && forall p :: p in ps ==> p.payload.Social?
    ensures SameMessages(ApplyAll(v, ps), v, k)
  {
    hide Apply;
    if ps != [] {
      StreamKeepsMessages(v, ps[..|ps| - 1], k);
      OthersKeepMessages(ApplyAll(v, ps[..|ps| - 1]), ps[|ps| - 1], k);
    }
  }

  /** What a client shows of a list of friends. */
  function ShownOf(es: seq<FriendEntry>): seq<FriendEntry> {
    First(Map((e: FriendEntry) => CutEntry(e), es), MAX_FRIENDS)
  }

  /**
   Messages stay in their slots when a friend list rewrites the ids and names: afterwards the transcript
   of a friend is what the slot at the place of the friend's entry held before, whoever it belonged to.
   */
  lemma ListMovesTranscripts(v: View, es: seq<FriendEntry>, friend: int)
    requires ViewOk(v)
    ensures var v', k := ApplyAll(v, FriendListStream(es)), PlaceOf(ShownOf(es), friend);
            && SlotFor(v', friend) == k < MAX_FRIENDS
            && TranscriptOf(v', friend) == if k < 0 then None else Some(v.slots[k].messages)
  {
    hide ApplyAll, FriendListStream, SlotFor, PlaceOf, FriendsShown, CutEntry;
    var v', k := ApplyAll(v, FriendListStream(es)), PlaceOf(ShownOf(es), friend);
    StreamShowsFriends(v, es);
    SlotIsPlace(v', friend);
    FriendStreamKind(es);
    if k >= 0 {
      StreamKeepsMessages(v, FriendListStream(es), k);
    }
  }

  /** So a friend list leaves a transcript as it is exactly when the friend keeps its place, or moves to a slot with the same messages. */
  lemma TranscriptSurvivesList(v: View, es: seq<FriendEntry>, friend: int)
    requires ViewOk(v) && SlotFor(v, friend) >= 0
    ensures var k, k' := SlotFor(v, friend), PlaceOf(ShownOf(es), friend);
            TranscriptOf(ApplyAll(v, FriendListStream(es)), friend) == TranscriptOf(v, friend)
            <==> k' >= 0 && (k' == k || v.slots[k'].messages == v.slots[k].messages)
  {
    hide ApplyAll, FriendListStream, SlotOf, PlaceOf, ShownOf;
    ListMovesTranscripts(v, es, friend);
  }

  /** Two friends change places: each transcript is shown under the other's name. */
  lemma SwappedPlacesSwapTranscripts(v: View, x: FriendEntry, y: FriendEntry)
    requires ViewOk(v) && v.friendCount == 2 && v.slots[0].id == x.id && v.slots[1].id == y.id && x.id != y.id
    ensures var v' := ApplyAll(v, FriendListStream([y, x]));
            TranscriptOf(v', x.id) == TranscriptOf(v, y.id) && TranscriptOf(v', y.id) == TranscriptOf(v, x.id)
  {
    hide ApplyAll, FriendListStream;
    ListMovesTranscripts(v, [y, x], x.id);
    ListMovesTranscripts(v, [y, x], y.id);
    assert ShownOf([y, x])[0].id == y.id && ShownOf([y, x])[1].id == x.id;
  }

  // ------------------------------------------------------------ a request of a third user

  /** How many of a user's entries are requests or friendships that others began. */
  function Began(t: seq<FriendRow>, users: seq<UserRow>, me: int): nat {
    |Filter((r: FriendRow) => r.friend == me && r.user in UserIds(users), t)|
  }

  /** A new request to a user puts its entry after those that others began and before those of the user's own. */
  lemma NewRequestListed(t: seq<FriendRow>, users: seq<UserRow>, me: int, from: int)
    requires from in UserIds(users) && from != me
    ensures var before, after, n := FriendListing(t, users, me), FriendListing(t + [FriendRow(from, me, false)], users, me), Began(t, users, me);
            n <= |before| && after == before[..n] + [FriendEntry(from, NameOf(users, from), 1)] + before[n..]
  {
    FilterAppend((r: FriendRow) => r.friend == me && r.user in UserIds(users), t, [FriendRow(from, me, false)]);
    FilterAppend((r: FriendRow) => r.user == me && r.friend in UserIds(users), t, [FriendRow(from, me, false)]);
    FilterOne((r: FriendRow) => r.friend == me && r.user in UserIds(users), FriendRow(from, me, false));
    FilterOne((r: FriendRow) => r.user == me && r.friend in UserIds(users), FriendRow(from, me, false));
    hide Filter, UserIds, NameOf;
  }

  lemma PlaceIs(es: seq<FriendEntry>, id: int, k: nat)
    requires k < |es| && es[k].id == id && forall i :: 0 <= i < k ==> es[i].id != id
    ensures PlaceOf(es, id) == k
  {
    hide PlaceOf;
  }

  /** A list that fits is shown whole. */
  lemma ShownWhole(es: seq<FriendEntry>, id: int)
    requires |es| <= MAX_FRIENDS
    ensures |ShownOf(es)| == |es| && PlaceOf(ShownOf(es), id) == PlaceOf(es, id)
  {
    hide PlaceOf;
    assert forall i :: 0 <= i < |es| ==> ShownOf(es)[i].id == es[i].id;
    var k := PlaceOf(es, id);
    if k >= 0 {
      PlaceIs(ShownOf(es), id, k);
    }
  }

  /** An inserted entry moves the ones behind it by one place. */
  lemma PlaceMoves(es: seq<FriendEntry>, n: nat, x: FriendEntry, id: int)
    requires n <= |es| < MAX_FRIENDS && x.id != id && PlaceOf(ShownOf(es), id) >= n
    ensures PlaceOf(ShownOf(es[..n] + [x] + es[n..]), id) == PlaceOf(ShownOf(es), id) + 1
  {
    hide PlaceOf, ShownOf;
    ShownWhole(es, id);
    var es', k := es[..n] + [x] + es[n..], PlaceOf(es, id);
    ShownWhole(es', id);
    forall i | 0 <= i < k + 1 ensures es'[i] == (if i < n then es[i] else if i == n then x else es[i - 1]) {}
    PlaceIs(es', id, k + 1);
  }

  /** The push that a request of somebody else brings to the user it is about. */
  lemma PushOfRequest(s: State, i: nat, p: Packet, fd: int, user: int)
    requires Good(s) && i < |s.sessions| && s.sessions[i].authenticated && s.sessions[i].id != user && LiveAs(s, fd, user)
    requires p.payload.Social? && IsFriendAction(p.payload.action)
    requires var d := DeedOf(s, Request(i, p, true)); d.Deed? && d.whom == user && d.rc == 0
    ensures var s' := Step(s, Request(i, p, true));
            && PacketsFor(News(s.sent, s'.sent), fd) == FriendListStream(FriendListing(s'.friends, s.users, user))
            && s'.friends == Perform(OpAt(s, i, p.payload.action, p.payload.name), s.friends).1
  {
    hide Perform, NotifyFriends, NameTaken, IdOf, FriendListing, Good, IsFriendAction, VerbOf, FriendListStream, LiveAs, Into, PacketsFor;
    var action, name := p.payload.action, p.payload.name;
    AcceptedRequest(s, i, action, name, true, p);
    AnsweredIsGood(s, i, action, name);
    var s2 := Answered(s, i, action, name);
    SameLive(s, s2, fd, user);
    NotifyReachesUser(s2, fd, user);
    OtherSocket(s, i, fd, user);
    var stream := FriendListStream(FriendListing(s2.friends, s2.users, user));
    ReplyAndStream(s.sent, Sent(s.sessions[i].fd, SocialResponse(action, RESP_OK)), stream, fd);
  }

  lemma ReplyAndStream(sent: seq<Out>, o: Out, ps: seq<Packet>, fd: int)
    requires o.fd != fd
    ensures PacketsFor(News(sent, (sent + [o]) + Into(fd, ps)), fd) == ps
  {
    hide Into, PacketsFor, News;
    assert (sent + [o]) + Into(fd, ps) == sent + ([o] + Into(fd, ps));
    NewsOf(sent, [o] + Into(fd, ps));
    PacketsForAppend([o], Into(fd, ps), fd);
    PacketsForOthers([o], fd);
    PacketsForInto(fd, ps);
    assert [] + ps == ps;
  }

  lemma SameLive(s: State, s': State, fd: int, user: int)
    requires s'.sessions == s.sessions
    ensures LiveAs(s', fd, user) == LiveAs(s, fd, user)
  {}

  lemma OtherSocket(s: State, i: nat, fd: int, user: int)
    requires Good(s) && i < |s.sessions| && LiveAs(s, fd, user) && s.sessions[i].id != user
    ensures s.sessions[i].fd != fd
  {
    if s.sessions[i].fd == fd {
      LiveConnection(s, i, fd, user);
    }
  }

  /**
   The failing run.  A user shows its friends as they are, among them one it has asked; a stranger sends it
   a request.  The stranger's entry comes first, so the friend moves to the next slot, and the client shows
   under the friend's name what that slot held: the transcript survives exactly if the two slots agree.
   */
  lemma RequestMovesTranscript(s: State, i: nat, p: Packet, fd: int, user: int, friend: int, v: View, ys: seq<Input>)
    requires Good(s) && i < |s.sessions| && s.sessions[i].authenticated && s.sessions[i].id != user && s.sessions[i].id != friend
    requires LiveAs(s, fd, user) && |FriendListing(s.friends, s.users, user)| < MAX_FRIENDS
    requires p.payload.Social? && p.payload.action == SOCIAL_FRIEND_REQUEST && p.payload.name == NameOf(s.users, user)
    requires PairOf(s.friends, s.sessions[i].id, user) == Strangers
    requires ViewOk(v) && FriendsShown(v) == FriendTruth(s, user) && SlotFor(v, friend) >= Began(s.friends, s.users, user)
    requires Receives(ys, s.sent, Step(s, Request(i, p, true)).sent, fd)
    ensures var v', k := AdvanceAll(v, ys), SlotFor(v, friend);
            && k + 1 < MAX_FRIENDS && SlotFor(v', friend) == k + 1
            && TranscriptOf(v, friend) == Some(v.slots[k].messages)
            && TranscriptOf(v', friend) == Some(v.slots[k + 1].messages)
  {
    var c := s.sessions[i];
    RequestIsInserted(s, i, p, fd, user);
    PushOfRequest(s, i, p, fd, user);
    NewRequestListed(s.friends, s.users, user, c.id);
    SlotIsPlace(v, friend);
    var es, n := FriendListing(s.friends, s.users, user), Began(s.friends, s.users, user);
    var x := FriendEntry(c.id, NameOf(s.users, c.id), 1);
    var es' := es[..n] + [x] + es[n..];
    assert FriendTruth(s, user) == ShownOf(es);
    hide SlotOf, PlaceOf, FriendListing, Good, PairOf, Step, NameOf, LiveAs, ApplyAll, AdvanceAll, ShownOf, FriendTruth, FriendsShown, FriendListStream;
    PlaceMoves(es, n, x, friend);
    ListMovesTranscripts(v, es', friend);
    FriendStreamKind(es');
    TypingKeepsAllButForm(v, ys);
    FormIsNoTranscript(ApplyAll(v, FriendListStream(es')), AdvanceAll(v, ys).form, friend);
  }

  /** The name of a user leads back to the user. */
  lemma NameLeadsBack(users: seq<UserRow>, user: int)
    requires UsersOk(users) && user in UserIds(users)
    ensures NameTaken(users, NameOf(users, user)) && IdOf(users, NameOf(users, user)) == user
  {
    NamedUser(users, user);
    var u :| u in users && u.id == user && u.name == NameOf(users, user);
    IdOfUser(users, u);
  }

  lemma StrangersAsk(t: seq<FriendRow>, known: seq<int>, a: int, b: int)
    requires a != b && PairOf(t, a, b) == Strangers && a in known && b in known
    ensures Perform(FriendOp(Asks, a, b, known), t) == (0, t + [FriendRow(a, b, false)])
  {}

  /** A request to a stranger is accepted and stored as one more row. */
  lemma RequestIsInserted(s: State, i: nat, p: Packet, fd: int, user: int)
    requires Good(s) && i < |s.sessions| && s.sessions[i].authenticated && s.sessions[i].id != user && LiveAs(s, fd, user)
    requires p.payload.Social? && p.payload.action == SOCIAL_FRIEND_REQUEST && p.payload.name == NameOf(s.users, user)
    requires PairOf(s.friends, s.sessions[i].id, user) == Strangers
    ensures s.sessions[i].id in s.Ids()
    ensures DeedOf(s, Request(i, p, true)) == Deed(s.sessions[i].id, user, 0)
    ensures Perform(OpAt(s, i, p.payload.action, p.payload.name), s.friends) == (0, s.friends + [FriendRow(s.sessions[i].id, user, false)])
  {
    var c := s.sessions[i];
    assert c in s.sessions;
    LiveIds(s, fd, user);
    hide LiveAs, Perform, PairOf, NameTaken, IdOf, NameOf, UserIds;
    NameLeadsBack(s.users, user);
    StrangersAsk(s.friends, s.Ids(), c.id, user);
    hide Good;
  }

  // ------------------------------------------------------------ messages stay in their slots

  /** The packet is a message or a frame for slot `k` of the view. */
  predicate GoesTo(v: View, p: Packet, k: int)
    requires v.friendCount <= |v.slots|
  {
    p.payload.Dm? && p.payload.action == DM_MESSAGE && SlotOf(v.slots, p.sender, p.payload.recipient, v.friendCount) == k
  }

  /** Nothing that happens to the client is a message or a frame for slot `k`. */
  ghost predicate Spared(v: View, zs: seq<Input>, k: int)
    requires ViewOk(v)
  {
    forall j :: 0 <= j < |zs| && zs[j].Arrival? ==> !GoesTo(AdvanceAll(v, zs[..j]), zs[j].packet, k)
  }

  lemma ElsewhereKeepsMessages(v: View, p: Packet, k: nat)
    requires ViewOk(v) && k < MAX_FRIENDS && !GoesTo(v, p, k)
    ensures SameMessages(Apply(v, p), v, k)
  {
    hide SlotOf, Truncated;
    if !p.payload.Dm? {
      OthersKeepMessages(v, p, k);
    }
  }

  lemma {:induction false} SparedSlotKeepsMessages(v: View, zs: seq<Input>, k: nat)
    requires ViewOk(v) && Spared(v, zs, k) && k < MAX_FRIENDS
    ensures SameMessages(AdvanceAll(v, zs), v, k)
  {
    hide Apply, GoesTo;
    if zs != [] {
      var front, last := zs[..|zs| - 1], zs[|zs| - 1];
      forall j | 0 <= j < |front| ensures front[..j] == zs[..j] && front[j] == zs[j] {}
      SparedSlotKeepsMessages(v, front, k);
      if last.Arrival? {
        assert !GoesTo(AdvanceAll(v, zs[..|zs| - 1]), last.packet, k);
        ElsewhereKeepsMessages(AdvanceAll(v, front), last.packet, k);
      }
    }
  }

  /**
   A transcript that nothing was written to survives exactly when its friend is back in its slot, or in
   one with the same messages; lists may have come in between, logins and logouts, edits and submissions.
   */
  lemma TranscriptSurvives(v: View, zs: seq<Input>, friend: int)
    requires ViewOk(v) && SlotFor(v, friend) >= 0 && Spared(v, zs, SlotFor(v, friend))
    ensures var w := AdvanceAll(v, zs);
            var k, k' := SlotFor(v, friend), SlotFor(w, friend);
            TranscriptOf(w, friend) == TranscriptOf(v, friend)
            <==> k' >= 0 && (k' == k || w.slots[k'].messages == v.slots[k].messages)
  {
    hide AdvanceAll, SlotOf, Spared;
    SparedSlotKeepsMessages(v, zs, SlotFor(v, friend));
  }

  // ------------------------------------------------------------ two reloads

  /**
   Mirrored transcripts.  One of two friends reloads the conversation (`ys` is what happens to its client
   meanwhile); then any events may happen, and anything to that client (`zs`), as long as no message reaches
   the friend's slot there and the stored conversation stays; then the other reloads (`us`).  Each shows the
   conversation under the true names exactly when its user can tell who wrote what; for the first this needs
   that the friend is still, or again, in the slot it had.
   */
  lemma MirroredTranscripts(s: State, i: nat, p: Packet, es: seq<Event>, j: nat, q: Packet, a: int, b: int,
                            v: View, ys: seq<Input>, zs: seq<Input>, w: View, us: seq<Input>)
    requires Good(s) && i < |s.sessions| && s.sessions[i].id == a && IsReload(p, b) && Ready(s, i, b, v)
    requires Runs(Step(s, Request(i, p, true)), es)
    requires var s1, fd := Step(s, Request(i, p, true)), s.sessions[i].fd;
             var s2 := Run(s1, es);
             && j < |s2.sessions| && s2.sessions[j].id == b && IsReload(q, a) && Ready(s2, j, a, w) && s2.sessions[j].fd != fd
             && Receives(ys, s.sent, s1.sent, fd) && Spared(AdvanceAll(v, ys), zs, SlotFor(v, b))
             && Receives(us, s2.sent, Step(s2, Request(j, q, true)).sent, s2.sessions[j].fd)
             && History(s2.dms, a, b) == History(s.dms, a, b)
    ensures var s2 := Run(Step(s, Request(i, p, true)), es);
            var s3, rows := Step(s2, Request(j, q, true)), History(s.dms, a, b);
            var first, second := AdvanceAll(AdvanceAll(v, ys), zs), AdvanceAll(w, us);
            && (TranscriptOf(second, a) == Some(Conversation(s.users, rows)) <==> CanTell(s.users, b, a, rows))
            && PacketsFor(News(s2.sent, s3.sent), s.sessions[i].fd) == []
            && (SlotFor(first, b) == SlotFor(v, b) ==>
                  (TranscriptOf(first, b) == Some(Conversation(s.users, rows)) <==> CanTell(s.users, a, b, rows)))
  {
    hide Good, Step, Run, Runs, AdvanceAll, TranscriptOf, Conversation, History, NameOf, Spared, DmStream, SlotFor, HasPlace, CanTell, Receives, Into, News, PacketsFor;
    var s1 := Step(s, Request(i, p, true));
    var s2 := Run(s1, es);
    StepKeepsGood(s, Request(i, p, true));
    RunKeepsGood(s1, es);
    PairKeepsNames(s, Request(i, p, true), es, i, a, b);
    ReloadShowsConversation(s, i, p, true, b, v, ys);
    TranscriptSurvives(AdvanceAll(v, ys), zs, b);
    ReloadShowsConversation(s2, j, q, true, a, w, us);
    SameHistory(s, a, b);
    SameHistory(s2, a, b);
    SameConversation(s, s2, a, b);
    NothingForOthers(s2.sent, s2.sessions[j].fd, DmStream(s2.users, s2.sessions[j], a, History(s2.dms, b, a)), s.sessions[i].fd);
  }

  lemma NothingForOthers(sent: seq<Out>, dest: int, ps: seq<Packet>, fd: int)
    requires dest != fd
    ensures PacketsFor(News(sent, sent + Into(dest, ps)), fd) == []
  {
    hide PacketsFor;
    NewsOf(sent, Into(dest, ps));
    IntoFd(dest, ps);
    hide Into;
    PacketsForOthers(Into(dest, ps), fd);
  }

  lemma SameHistory(s: State, a: int, b: int)
    requires Good(s)
    ensures History(s.dms, a, b) == History(s.dms, b, a)
  {
    HistoryOfPair(s.dms, a, b);
    hide History;
  }

  lemma PairKeepsNames(s: State, e: Event, es: seq<Event>, i: nat, a: int, b: int)
    requires Good(s) && Enabled(s, e) && Runs(Step(s, e), es)
    requires i < |s.sessions| && s.sessions[i].authenticated && s.sessions[i].id == a && b in s.Ids()
    ensures var s2 := Run(Step(s, e), es);
            NameOf(s2.users, a) == NameOf(s.users, a) && NameOf(s2.users, b) == NameOf(s.users, b)
  {
    hide Step, Run, Runs, NameOf, UserIds;
    StepKeepsGood(s, e);
    StepKeepsUsers(s, e);
    RunKeepsUsers(Step(s, e), es);
    assert s.sessions[i] in s.sessions;
  }

  /** Both authors keep their names, so the conversation reads the same in both states. */
  lemma SameConversation(s: State, s2: State, a: int, b: int)
    requires History(s2.dms, a, b) == History(s.dms, a, b)
    requires NameOf(s2.users, a) == NameOf(s.users, a) && NameOf(s2.users, b) == NameOf(s.users, b)
    ensures Conversation(s2.users, History(s2.dms, a, b)) == Conversation(s.users, History(s.dms, a, b))
    ensures CanTell(s2.users, b, a, History(s2.dms, a, b)) == CanTell(s.users, b, a, History(s.dms, a, b))
  {
    var rows := History(s.dms, a, b);
    HistoryMembers(s.dms, a, b);
    forall k | 0 <= k < |rows| ensures rows[k].sender == a || rows[k].sender == b {
      assert rows[k] in rows;
    }
    hide History, NameOf, Truncated;
  }

  /**
   The failing run, from the reload on.  The client shows the conversation under the friend's name; then a
   stranger sends its user a request, and the client shows what the next slot held before all this.
   */
  lemma RequestBreaksMirror(s: State, i: nat, p: Packet, x: nat, r: Packet, b: int, v: View, ys: seq<Input>, zs: seq<Input>)
    requires Good(s) && i < |s.sessions| && IsReload(p, b) && Ready(s, i, b, v) && FriendsShown(v) == FriendTruth(s, s.sessions[i].id)
    requires x < |s.sessions| && s.sessions[x].authenticated && s.sessions[x].id != s.sessions[i].id && s.sessions[x].id != b
    requires r.payload.Social? && r.payload.action == SOCIAL_FRIEND_REQUEST && r.payload.name == NameOf(s.users, s.sessions[i].id)
    requires |FriendListing(s.friends, s.users, s.sessions[i].id)| < MAX_FRIENDS
    requires PairOf(s.friends, s.sessions[x].id, s.sessions[i].id) == Strangers
    requires SlotFor(v, b) >= Began(s.friends, s.users, s.sessions[i].id)
    requires var s1, fd := Step(s, Request(i, p, true)), s.sessions[i].fd;
             && Receives(ys, s.sent, s1.sent, fd)
             && (x < |s1.sessions| ==> Receives(zs, s1.sent, Step(s1, Request(x, r, true)).sent, fd))
    ensures var rows := History(s.dms, s.sessions[i].id, b);
            var v1 := AdvanceAll(v, ys);
            && x < |Step(s, Request(i, p, true)).sessions|
            && (TranscriptOf(v1, b) == Some(Conversation(s.users, rows)) <==> CanTell(s.users, s.sessions[i].id, b, rows))
            && SlotFor(v, b) + 1 < MAX_FRIENDS && TranscriptOf(AdvanceAll(v1, zs), b) == Some(v.slots[SlotFor(v, b) + 1].messages)
  {
    hide Good, AdvanceAll, TranscriptOf, Conversation, History, NameOf, DmStream, SlotFor, HasPlace, CanTell, FriendListing, FriendTruth, PairOf, Began, Step, FriendsShown, Receives;
    var s1, fd, a := Step(s, Request(i, p, true)), s.sessions[i].fd, s.sessions[i].id;
    ReloadShowsConversation(s, i, p, true, b, v, ys);
    StepKeepsGood(s, Request(i, p, true));
    ReloadKeepsFriends(v, SlotFor(v, b), AdvanceAll(v, ys));
    TruthIsOfTables(s, s1, a);
    assert LiveAs(s1, fd, a);
    RequestMovesTranscript(s1, x, r, fd, a, b, AdvanceAll(v, ys), zs);
  }

  lemma ReloadKeepsFriends(v: View, k: nat, w: View)
    requires ViewOk(v) && k < |v.slots| && ViewOk(w) && w == WithMessages(v, k, w.slots[k].messages).(form := w.form)
    ensures FriendsShown(w) == FriendsShown(v) && forall j :: 0 <= j < |v.slots| && j != k ==> w.slots[j] == v.slots[j]
  {
    assert FriendsShown(w) == FriendsShown(v);
  }

  lemma TruthIsOfTables(s: State, s1: State, user: int)
    requires s1.friends == s.friends && s1.users == s.users
    ensures FriendTruth(s1, user) == FriendTruth(s, user)
  {}

  // ------------------------------------------------------------ runs without direct messages

  /** The log goes on without a direct message for `fd`, which stays connected. */
  ghost predicate NoDms(a: seq<Out>, b: seq<Out>, fd: int) {
    && a <= b
    && forall j :: |a| <= j < |b| && b[j].fd == fd ==> !b[j].Opened? && (b[j].Sent? ==> !b[j].packet.payload.Dm?)
  }

  lemma NoDmsTrans(a: seq<Out>, b: seq<Out>, c: seq<Out>, fd: int)
    requires NoDms(a, b, fd) && NoDms(b, c, fd)
    ensures NoDms(a, c, fd)
  {}

  lemma NoDmsSpare(v: View, zs: seq<Input>, a: seq<Out>, b: seq<Out>, fd: int, k: int)
    requires ViewOk(v) && NoDms(a, b, fd) && Receives(zs, a, b, fd)
    ensures Spared(v, zs, k)
  {
    hide AdvanceAll, SlotOf;
    forall o | o in News(a, b) && o.fd == fd && o.Sent? ensures !o.packet.payload.Dm? {
      var n :| 0 <= n < |News(a, b)| && News(a, b)[n] == o;
      assert b[|a| + n] == o;
    }
    AllPacketsFor(News(a, b), fd, (p: Packet) => !p.payload.Dm?);
    forall j | 0 <= j < |zs| && zs[j].Arrival? ensures !zs[j].packet.payload.Dm? {
      ArrivalsHold(zs, j);
    }
  }

  lemma {:induction false} ArrivalsHold(zs: seq<Input>, j: nat)
    requires j < |zs| && zs[j].Arrival?
    ensures zs[j].packet in Arrivals(zs)
  {
    if j < |zs| - 1 {
      ArrivalsHold(zs[..|zs| - 1], j);
    }
  }

  /** What was sent before and what is sent meanwhile is what was sent in all. */
  lemma HistoryGoesOn(xs: seq<Input>, ys: seq<Input>, a: seq<Out>, b: seq<Out>, fd: int)
    requires Arrivals(xs) == PacketsOn(a, fd) && Receives(ys, a, b, fd)
    requires a <= b && forall k :: |a| <= k < |b| && b[k].fd == fd ==> b[k].Sent?
    ensures Arrivals(xs + ys) == PacketsOn(b, fd)
  {
    hide PacketsOn, Arrivals, PacketsFor;
    ArrivalsAppend(xs, ys);
    PacketsGrow(a, b, fd);
  }

  lemma AsideHasNoDms(a: seq<Out>, b: seq<Out>, kind: Kind, fd: int)
    requires AsideLog(a, b, kind) && !kind.Dms?
    ensures NoDms(a, b, fd)
  {}

  lemma AccountsHaveNoDms(a: seq<Out>, b: seq<Out>, fd: int)
    requires AccountLog(a, b)
    ensures NoDms(a, b, fd)
  {}

  /** Neither a direct message or its history, nor a new connection on the socket. */
  predicate IsQuiet(e: Event, fd: int) {
    e != Accept(fd) && (e.Request? ==> !e.packet.payload.Dm?)
  }

  lemma QuietEvent(s: State, e: Event, fd: int)
    requires Enabled(s, e) && IsQuiet(e, fd)
    ensures NoDms(s.sent, Step(s, e).sent, fd)
  {
    hide HandleAuth, HandleServer, HandleChannel, HandleSocial, Announce, AsideLog, AccountLog, NoDms;
    var s' := Step(s, e);
    match e
    case Accept(other) => NewSocketHasNoDms(s, other, fd);
    case Hangup(i) =>
      var s1 := s.(sessions := s.sessions[..i] + s.sessions[i + 1..]);
      AnnounceLog(s1, s.sessions[i].id);
      AccountsHaveNoDms(s.sent, Announce(s1, s.sessions[i].id).sent, fd);
      NothingHasNoDms(s.sent, fd);
    case Request(i, p, hashOk) =>
      match p.payload
      case Auth(_, _, _, _) =>
        AuthLog(s, i, p, hashOk);
        AccountsHaveNoDms(s.sent, s'.sent, fd);
      case Server(_, _, _, _, _, _) =>
        ServerAside(s, i, p);
        AsideHasNoDms(s.sent, s'.sent, Servers, fd);
      case Channel(_, _, _, _, _, _, _) =>
        ChannelAside(s, i, p);
        AsideHasNoDms(s.sent, s'.sent, Channels, fd);
      case Social(_, _, _, _, _, _) =>
        SocialAside(s, i, p);
        AsideHasNoDms(s.sent, s'.sent, Socials, fd);
  }

  lemma NewSocketHasNoDms(s: State, other: int, fd: int)
    requires other != fd
    ensures NoDms(s.sent, Connect(s, other).sent, fd)
  {}

  lemma NothingHasNoDms(sent: seq<Out>, fd: int)
    ensures NoDms(sent, sent, fd)
  {}

  lemma QuietEventKeepsDms(s: State, e: Event, fd: int)
    requires Enabled(s, e) && IsQuiet(e, fd)
    ensures Step(s, e).dms == s.dms
  {
    hide NotifyJoined, NotifyUsers, JoinedServers, RevokeOuts, Store.Perform, NotifyMembers, NotifyFriends, Perform, FriendListing, UserListStream;
  }

  lemma {:induction false} QuietRun(s: State, es: seq<Event>, fd: int)
    requires Runs(s, es) && forall e :: e in es ==> IsQuiet(e, fd)
    ensures NoDms(s.sent, Run(s, es).sent, fd) && Run(s, es).dms == s.dms
    decreases |es|
  {
    hide Step, NoDms, IsQuiet;
    if es == [] {
      NothingHasNoDms(s.sent, fd);
    } else {
      QuietEvent(s, es[0], fd);
      QuietEventKeepsDms(s, es[0], fd);
      QuietRun(Step(s, es[0]), es[1..], fd);
      NoDmsTrans(s.sent, Step(s, es[0]).sent, Run(s, es).sent, fd);
    }
  }

  /**
   In particular, whatever happens between the two reloads except direct messages: if the friend is then at
   the same place among the true entries as before, and the first client was sent them, both show the same
   conversation.  `xs`, `ys` and `zs` are the history of the first client.
   */
  lemma MirroredAfterQuietRun(s: State, i: nat, p: Packet, es: seq<Event>, j: nat, q: Packet, a: int, b: int,
                              xs: seq<Input>, ys: seq<Input>, zs: seq<Input>, w: View, us: seq<Input>)
    requires Good(s) && i < |s.sessions| && s.sessions[i].id == a && IsReload(p, b) && Ready(s, i, b, Client(xs)) && Fresh(s, s.sessions[i].fd, a)
    requires Runs(Step(s, Request(i, p, true)), es) && forall e :: e in es ==> IsQuiet(e, s.sessions[i].fd)
    requires var s1, fd := Step(s, Request(i, p, true)), s.sessions[i].fd;
             var s2 := Run(s1, es);
             && Arrivals(xs) == PacketsOn(s.sent, fd) && Receives(ys, s.sent, s1.sent, fd) && Receives(zs, s1.sent, s2.sent, fd)
             && j < |s2.sessions| && s2.sessions[j].id == b && IsReload(q, a) && Ready(s2, j, a, w) && s2.sessions[j].fd != fd
             && Receives(us, s2.sent, Step(s2, Request(j, q, true)).sent, s2.sessions[j].fd)
             && Fresh(s2, fd, a) && PlaceOf(FriendTruth(s2, a), b) == PlaceOf(FriendTruth(s, a), b)
    requires CanTell(s.users, a, b, History(s.dms, a, b)) && CanTell(s.users, b, a, History(s.dms, a, b))
    ensures var talk := Some(Conversation(s.users, History(s.dms, a, b)));
            TranscriptOf(Client(xs + ys + zs), b) == talk && TranscriptOf(AdvanceAll(w, us), a) == talk
  {
    hide Good, Step, Run, Runs, Client, AdvanceAll, TranscriptOf, Conversation, History, Spared, SlotFor, HasPlace, CanTell, NoDms, IsQuiet, FriendTruth, PlaceOf, Fresh, FriendsShown, Receives, Arrivals, PacketsOn;
    var s1, fd := Step(s, Request(i, p, true)), s.sessions[i].fd;
    var s2 := Run(s1, es);
    ReloadShowsConversation(s, i, p, true, b, Client(xs), ys);
    QuietRun(s1, es, fd);
    NoDmsSpare(AdvanceAll(Client(xs), ys), zs, s1.sent, s2.sent, fd, SlotFor(Client(xs), b));
    QuietHistory(s, s1, s2, i, b, xs, ys, zs);
    ClientGoesOn(xs, ys);
    ClientGoesOn(xs + ys, zs);
    ClientPlace(xs, s, fd, a, b);
    ClientPlace(xs + ys + zs, s2, fd, a, b);
    SameDms(s, s2, a, b);
    MirroredTranscripts(s, i, p, es, j, q, a, b, Client(xs), ys, zs, w, us);
  }

  /** Everything sent to the first client up to the second reload has arrived. */
  lemma QuietHistory(s: State, s1: State, s2: State, i: nat, b: int, xs: seq<Input>, ys: seq<Input>, zs: seq<Input>)
    requires i < |s.sessions| && NoDms(s1.sent, s2.sent, s.sessions[i].fd)
    requires var c, rows := s.sessions[i], History(s.dms, s.sessions[i].id, b); s1 == s.SendAll(Into(c.fd, DmStream(s.users, c, b, rows)))
    requires var fd := s.sessions[i].fd;
             Arrivals(xs) == PacketsOn(s.sent, fd) && Receives(ys, s.sent, s1.sent, fd) && Receives(zs, s1.sent, s2.sent, fd)
    ensures Arrivals(xs + ys + zs) == PacketsOn(s2.sent, s.sessions[i].fd)
  {
    hide PacketsOn, Arrivals, Receives, DmStream, History;
    var c := s.sessions[i];
    IntoFd(c.fd, DmStream(s.users, c, b, History(s.dms, c.id, b)));
    hide Into;
    HistoryGoesOn(xs, ys, s.sent, s1.sent, c.fd);
    HistoryGoesOn(xs + ys, zs, s1.sent, s2.sent, c.fd);
  }

  /** A client that was sent the true entries has the friend in the slot of its place among them. */
  lemma ClientPlace(xs: seq<Input>, s: State, fd: int, user: int, id: int)
    requires Arrivals(xs) == PacketsOn(s.sent, fd) && Fresh(s, fd, user)
    ensures SlotFor(Client(xs), id) == PlaceOf(FriendTruth(s, user), id)
  {
    hide Client, FriendTruth, PlaceOf, FriendsShown, SlotFor, Fresh, Arrivals, PacketsOn;
    ClientShowsFriends(xs, s, fd, user);
    SlotIsPlace(Client(xs), id);
  }

  lemma SameDms(s: State, s2: State, a: int, b: int)
    requires s2.dms == s.dms
    ensures History(s2.dms, a, b) == History(s.dms, a, b)
  {}
}
