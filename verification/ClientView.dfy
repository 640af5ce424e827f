/**
 What a client makes of the packets it receives: the user list, the friend slots and the
 direct-message transcripts that `client/ui.c` keeps, as a function of one packet at a time.
 */
module ClientView {
  import opened Names
  import opened Protocol
  import opened Friends

  const MAX_ALL_USERS: nat := 128
  const MAX_FRIENDS: nat := 64
  const MAX_MESSAGES: nat := 64
  const MAX_USERS: nat := 16
  const BODY_LEN: nat := 239  // MAX_MSG_LEN without the terminator

  datatype UiUser = UiUser(id: int, name: string, profile: string, online: int)

  datatype Message = Message(author: string, body: string)

  /** A friend slot; its messages stay in the slot when the list is rewritten. */
  datatype Slot = Slot(id: int, name: string, kind: int, messages: seq<Message>)

  datatype Option<T> = None | Some(value: T)

  /**
   `form` is the name in the login form.  `names` are the user names that the answers to logins and
   registrations have stored so far, and `current` the index of the one in use, or -1.
   */
  datatype View = View(users: seq<UiUser>, slots: seq<Slot>, friendCount: nat, form: string, names: seq<string>, current: int) {
    /** The name that the client takes for its own. */
    function Me(): Option<string> {
      if 0 <= current < |names| then Some(names[current]) else None
    }
  }

  ghost predicate ViewOk(v: View) {
    && |v.users| <= MAX_ALL_USERS
    && |v.slots| == MAX_FRIENDS && v.friendCount <= MAX_FRIENDS
    && (forall s :: s in v.slots ==> |s.messages| <= MAX_MESSAGES)
    && |v.form| <= NAME_LEN && -1 <= v.current < |v.names|
  }

  function FriendsShown(v: View): seq<FriendEntry>
    requires v.friendCount <= |v.slots|
  {
    Map((s: Slot) => FriendEntry(s.id, s.name, s.kind), v.slots[..v.friendCount])
  }

  // ------------------------------------------------------------ the exchange sort

  /** The comparison of the sort: does `b` belong before `a`? */
  predicate Before(b: UiUser, a: UiUser) {
    b.online > a.online || (b.online == a.online && CaseLess(b.name, a.name))
  }

  lemma BeforeIsWeakOrder(a: UiUser, b: UiUser, c: UiUser)
    ensures !Before(a, a)
    ensures Before(b, a) ==> !Before(a, b)
    ensures !Before(b, a) && !Before(c, b) ==> !Before(c, a)
  {
    LessTotal(LowerCase(a.name), LowerCase(a.name));
    LessTotal(LowerCase(a.name), LowerCase(b.name));
    if !CaseLess(b.name, a.name) && !CaseLess(c.name, b.name) {
      NotLessTransitive(LowerCase(a.name), LowerCase(b.name), LowerCase(c.name));
    }
  }

  ghost predicate Sorted(s: seq<UiUser>) {
    forall i, j :: 0 <= i < j < |s| ==> !Before(s[j], s[i])
  }

  function Swap(s: seq<UiUser>, i: nat, j: nat): (r: seq<UiUser>)
    requires i < j < |s|
    ensures |r| == |s| && multiset(r) == multiset(s)
  {
    s[i := s[j]][j := s[i]]
  }

  /** The inner loop: place `i` meets every later place from `j` on. */
  function Exchange(s: seq<UiUser>, i: nat, j: nat): (r: seq<UiUser>)
    requires i < j <= |s|
    ensures |r| == |s| && multiset(r) == multiset(s)
    decreases |s| - j
  {
    if j == |s| then s else Exchange(if Before(s[j], s[i]) then Swap(s, i, j) else s, i, j + 1)
  }

  function ExchangeFrom(s: seq<UiUser>, i: nat): (r: seq<UiUser>)
    ensures |r| == |s| && multiset(r) == multiset(s)
    decreases |s| - i
  {
    if i + 1 >= |s| then s else ExchangeFrom(Exchange(s, i, i + 1), i + 1)
  }

  /** The first `i` places hold their final users: sorted, and none of the others belongs before them. */
  ghost predicate Settled(s: seq<UiUser>, i: nat)
    requires i <= |s|
  {
    forall p, q :: 0 <= p < i && p < q < |s| ==> !Before(s[q], s[p])
  }

  /** One meeting of the places `i` and `j` of the loops. */
  lemma MeetingSettles(s: seq<UiUser>, i: nat, j: nat)
    requires i < j < |s| && Settled(s, i)
    requires forall q :: i < q < j ==> !Before(s[q], s[i])
    ensures var s' := if Before(s[j], s[i]) then Swap(s, i, j) else s;
            Settled(s', i) && forall q :: i < q <= j ==> !Before(s'[q], s'[i])
  {
    BeforeIsWeakOrder(s[i], s[j], s[j]);
    forall q | i < q < j ensures Before(s[j], s[i]) ==> !Before(s[q], s[j]) {
      BeforeIsWeakOrder(s[j], s[i], s[q]);
    }
    hide Before;
    if Before(s[j], s[i]) {
      var s' := Swap(s, i, j);
      forall p, q | 0 <= p < i && p < q < |s'| ensures !Before(s'[q], s'[p]) {
        assert s'[q] == s[if q == i then j else if q == j then i else q];
      }
    }
  }

  lemma {:induction false} ExchangeSettles(s: seq<UiUser>, i: nat, j: nat)
    requires i < j <= |s| && Settled(s, i)
    requires forall q :: i < q < j ==> !Before(s[q], s[i])
    ensures Settled(Exchange(s, i, j), i + 1)
    decreases |s| - j
  {
    hide Before;
    if j < |s| {
      MeetingSettles(s, i, j);
      ExchangeSettles(if Before(s[j], s[i]) then Swap(s, i, j) else s, i, j + 1);
    }
  }

  /** The nested loops sort every list: a permutation, online users first, then by name without regard to case. */
  lemma {:induction false} ExchangeSorts(s: seq<UiUser>, i: nat)
    requires i <= |s| && Settled(s, i)
    ensures Sorted(ExchangeFrom(s, i)) && multiset(ExchangeFrom(s, i)) == multiset(s)
    decreases |s| - i
  {
    hide Before, Exchange;
    if i + 1 < |s| {
      ExchangeSettles(s, i, i + 1);
      ExchangeSorts(Exchange(s, i, i + 1), i + 1);
    }
  }

  /** What the order is: users who are online first, and within each group the names without regard to case. */
  lemma OrderIs(s: seq<UiUser>, i: nat, j: nat)
    requires Sorted(s) && i < j < |s|
    ensures s[i].online >= s[j].online
    ensures s[i].online == s[j].online ==> !Less(LowerCase(s[j].name), LowerCase(s[i].name))
  {
    assert !Before(s[j], s[i]);
  }

  // ------------------------------------------------------------ one packet

  /** The first list entry with the id takes the new status text and presence. */
  function WithStatus(users: seq<UiUser>, id: int, profile: string, online: int): (r: seq<UiUser>)
    ensures |r| == |users|
  {
    if users == [] then []
    else if users[0].id == id then [users[0].(profile := profile, online := online)] + users[1..]
    else [users[0]] + WithStatus(users[1..], id, profile, online)
  }

  /** The first shown slot that belongs to one of two ids, or -1. */
  function SlotOf(slots: seq<Slot>, a: int, b: int, n: nat): (k: int)
    requires n <= |slots|
    ensures -1 <= k < n
    ensures k >= 0 ==> slots[k].id == a || slots[k].id == b
    ensures forall i :: 0 <= i < (if k >= 0 then k else n) ==> slots[i].id != a && slots[i].id != b
  {
    if n == 0 then -1
    else
      var k := SlotOf(slots, a, b, n - 1);
      if k >= 0 then k
      else if slots[n - 1].id == a || slots[n - 1].id == b then n - 1
      else -1
  }

  /** `ui_receive_dm_message` */
  function ReceiveDm(v: View, p: Packet): View
    requires p.payload.Dm? && v.friendCount <= |v.slots|
  {
    var k := SlotOf(v.slots, p.sender, p.payload.recipient, v.friendCount);
    if k < 0 then v
    else
      var s := v.slots[k];
      if p.frame == LIST_FRAME_START then v.(slots := v.slots[k := s.(messages := [])])
      else if p.frame == LIST_FRAME_END || |s.messages| >= MAX_MESSAGES then v
      else
        var author := if p.sender == s.id then s.name else if v.Me().Some? then v.Me().value else "Me";
        var m := Message(Truncated(author, NAME_LEN), Truncated(p.payload.text, BODY_LEN));
        v.(slots := v.slots[k := s.(messages := s.messages + [m])])
  }

  /** The friend-list arm of `process_network_packet`. */
  function ReceiveFriend(v: View, p: Packet): View
    requires p.payload.Social?
  {
    if p.frame == LIST_FRAME_START then v.(friendCount := 0)
    else if (p.frame == LIST_FRAME_MIDDLE || p.frame == LIST_FRAME_SINGLE) && v.friendCount < MAX_FRIENDS && v.friendCount < |v.slots| then
      var s := v.slots[v.friendCount];
      var s' := s.(id := p.payload.target, name := Truncated(p.payload.name, NAME_LEN), kind := p.payload.status);
      v.(slots := v.slots[v.friendCount := s'], friendCount := v.friendCount + 1)
    else v
  }

  /** The user-list arm of `process_network_packet`. */
  function ReceiveUser(v: View, p: Packet): View
    requires p.payload.Social?
  {
    if p.frame == LIST_FRAME_START then v.(users := [])
    else if p.frame == LIST_FRAME_MIDDLE && |v.users| < MAX_ALL_USERS then
      v.(users := v.users + [UiUser(p.payload.target, Truncated(p.payload.name, NAME_LEN),
                                    Truncated(p.payload.profile, STATUS_LEN), p.payload.status)])
    else if p.frame == LIST_FRAME_END then v.(users := ExchangeFrom(v.users, 0))
    else v
  }

  /** The answer OK to a login or a registration. */
  predicate IsWelcome(p: Packet) {
    p.payload.Auth? && (p.payload.action == AUTH_LOGIN || p.payload.action == AUTH_REGISTER) && p.payload.status == RESP_OK
  }

  /** `process_network_packet`, for the packets that change the user list, the friends or the transcripts. */
  function Apply(v: View, p: Packet): (r: View)
    requires v.friendCount <= |v.slots|
    ensures r.friendCount <= |r.slots|
    ensures ViewOk(v) ==> ViewOk(r)
  {
    match p.payload
    case Auth(action, _, _, _) =>
      if action == AUTH_LOGOUT then v.(users := [], friendCount := 0, current := -1, form := "")
      else if IsWelcome(p) then v.(names := v.names + [Truncated(v.form, NAME_LEN)], current := |v.names|, form := "")
      else v
    case Dm(action, _, _, _, _) => if action == DM_MESSAGE then ReceiveDm(v, p) else v
    case Social(presence, action, status, target, _, profile) =>
      if action == SOCIAL_LIST_FRIENDS then ReceiveFriend(v, p)
      else if action == SOCIAL_LIST_USERS then ReceiveUser(v, p)
      else if action == SOCIAL_UPDATE_STATUS && status == RESP_OK then
        v.(users := WithStatus(v.users, target, Truncated(profile, STATUS_LEN), if presence == STATUS_ONLINE then 1 else 0))
      else v
    case Server(_, _, _, _, _, _) => v
    case Channel(_, _, _, _, _, _, _) => v
  }

  function ApplyAll(v: View, ps: seq<Packet>): (r: View)
    requires v.friendCount <= |v.slots|
    ensures r.friendCount <= |r.slots|
    ensures ViewOk(v) ==> ViewOk(r)
  {
    if ps == [] then v else Apply(ApplyAll(v, ps[..|ps| - 1]), ps[|ps| - 1])
  }

  lemma ApplyOne(v: View, p: Packet)
    requires v.friendCount <= |v.slots|
    ensures ApplyAll(v, [p]) == Apply(v, p)
  {}

  lemma {:induction false} ApplyAppend(v: View, ps: seq<Packet>, qs: seq<Packet>)
    requires v.friendCount <= |v.slots|
    ensures ApplyAll(v, ps + qs) == ApplyAll(ApplyAll(v, ps), qs)
  {
    if qs == [] {
      assert ps + qs == ps;
    } else {
      ApplyAppend(v, ps, qs[..|qs| - 1]);
      assert (ps + qs)[..|ps + qs| - 1] == ps + qs[..|qs| - 1];
    }
  }

  /** A client that has just connected. */
  function Blank(): (v: View)
    ensures ViewOk(v) && v.users == [] && v.friendCount == 0 && v.names == [] && v.current == -1
  {
    View([], seq(MAX_FRIENDS, i => Slot(0, "", 0, [])), 0, "", [], -1)
  }

  // ------------------------------------------------------------ the lists, frame by frame

  /** Frames of a friend list: START empties the list, MIDDLE and SINGLE add an entry while there is room; messages stay in their slots. */
  lemma FriendFrames(v: View, p: Packet)
    requires ViewOk(v) && p.payload.Social? && p.payload.action == SOCIAL_LIST_FRIENDS
    ensures var w, n := Apply(v, p), v.friendCount;
            if p.frame == LIST_FRAME_START then w == v.(friendCount := 0)
            else if (p.frame == LIST_FRAME_MIDDLE || p.frame == LIST_FRAME_SINGLE) && n < MAX_FRIENDS
            then w == v.(slots := w.slots, friendCount := n + 1) && |w.slots| == |v.slots|
                 && (forall k :: 0 <= k < |v.slots| && k != n ==> w.slots[k] == v.slots[k])
                 && w.slots[n] == Slot(p.payload.target, Truncated(p.payload.name, NAME_LEN), p.payload.status, v.slots[n].messages)
            else w == v
  {}

  /** Frames of a user list: START empties it, MIDDLE adds a user while there is room, END puts it in order; no other frame does anything. */
  lemma UserFrames(v: View, p: Packet)
    requires ViewOk(v) && p.payload.Social? && p.payload.action == SOCIAL_LIST_USERS
    ensures var w := Apply(v, p);
            && w == v.(users := w.users)
            && (p.frame == LIST_FRAME_START ==> w.users == [])
            && (p.frame == LIST_FRAME_MIDDLE ==>
                  w.users == v.users + if |v.users| < MAX_ALL_USERS
                                       then [UiUser(p.payload.target, Truncated(p.payload.name, NAME_LEN), Truncated(p.payload.profile, STATUS_LEN), p.payload.status)]
                                       else [])
            && (p.frame == LIST_FRAME_END ==> Sorted(w.users) && multiset(w.users) == multiset(v.users))
            && (!(p.frame in [LIST_FRAME_START, LIST_FRAME_MIDDLE, LIST_FRAME_END]) ==> w == v)
  {
    ExchangeSorts(v.users, 0);
    hide ExchangeFrom, Sorted, Truncated;
  }

  /** A farewell leaves nobody, no friends and no own name; what was said stays in the slots, and the stored names stay. */
  lemma FarewellForgets(v: View, p: Packet)
    requires ViewOk(v) && p.payload.Auth? && p.payload.action == AUTH_LOGOUT
    ensures var w := Apply(v, p);
            && w.users == [] && FriendsShown(w) == [] && w.Me() == None && w.form == "" && w.slots == v.slots && w.names == v.names
  {}

  // ------------------------------------------------------------ a message that the user types

  /** Enter in the input of the conversation in slot `k`: the message is sent, and the sender's own transcript gets it at once. */
  function Echo(v: View, k: nat, text: string): (w: View)
    requires ViewOk(v) && k < MAX_FRIENDS && v.Me().Some?
    ensures ViewOk(w)
  {
    var s := v.slots[k];
    if text == "" || |s.messages| >= MAX_MESSAGES then v
    else v.(slots := v.slots[k := s.(messages := s.messages + [Message(Truncated(v.Me().value, NAME_LEN), Truncated(text, BODY_LEN))])])
  }

  // ------------------------------------------------------------ what happens to a client

  /**
   Its user edits the login form, its user submits the form, or a packet arrives; in any order.  F2 is an edit
   that empties the form.  Enter without a password sends nothing and is no input.
   */
  datatype Input = Typing(form: string) | Submit | Arrival(packet: Packet)

  function Advance(v: View, x: Input): (r: View)
    requires v.friendCount <= |v.slots|
    ensures r.friendCount <= |r.slots|
    ensures ViewOk(v) ==> ViewOk(r)
  {
    match x
    case Typing(form) => v.(form := Truncated(form, NAME_LEN))
    case Submit => v
    case Arrival(p) => Apply(v, p)
  }

  function AdvanceAll(v: View, xs: seq<Input>): (r: View)
    requires v.friendCount <= |v.slots|
    ensures r.friendCount <= |r.slots|
    ensures ViewOk(v) ==> ViewOk(r)
  {
    if xs == [] then v else Advance(AdvanceAll(v, xs[..|xs| - 1]), xs[|xs| - 1])
  }

  lemma {:induction false} AdvanceAppend(v: View, xs: seq<Input>, ys: seq<Input>)
    requires v.friendCount <= |v.slots|
    ensures AdvanceAll(v, xs + ys) == AdvanceAll(AdvanceAll(v, xs), ys)
  {
    if ys == [] {
      assert xs + ys == xs;
    } else {
      AdvanceAppend(v, xs, ys[..|ys| - 1]);
      assert (xs + ys)[..|xs + ys| - 1] == xs + ys[..|ys| - 1];
    }
  }

  /** The packets among the inputs, in order. */
  function Arrivals(xs: seq<Input>): seq<Packet> {
    if xs == [] then []
    else Arrivals(xs[..|xs| - 1]) + if xs[|xs| - 1].Arrival? then [xs[|xs| - 1].packet] else []
  }

  lemma {:induction false} ArrivalsAppend(xs: seq<Input>, ys: seq<Input>)
    ensures Arrivals(xs + ys) == Arrivals(xs) + Arrivals(ys)
  {
    if ys == [] {
      assert xs + ys == xs;
    } else {
      ArrivalsAppend(xs, ys[..|ys| - 1]);
      assert (xs + ys)[..|xs + ys| - 1] == xs + ys[..|ys| - 1];
    }
  }

  // ------------------------------------------------------------ what typing does not change

  /** The two views agree on the lists and on how many messages each slot holds; not on the account and on what the messages say. */
  predicate SameShown(v: View, w: View) {
    && v.users == w.users && v.friendCount == w.friendCount && |v.slots| == |w.slots|
    && (forall k :: 0 <= k < |v.slots| ==> SameEntry(v.slots[k], w.slots[k]))
  }

  predicate SameEntry(s: Slot, t: Slot) {
    s.id == t.id && s.name == t.name && s.kind == t.kind && |s.messages| == |t.messages|
  }

  lemma {:induction false} SameSlots(v: seq<Slot>, w: seq<Slot>, a: int, b: int, n: nat)
    requires n <= |v| == |w| && forall k :: 0 <= k < |v| ==> SameEntry(v[k], w[k])
    ensures SlotOf(v, a, b, n) == SlotOf(w, a, b, n)
  {
    if n > 0 {
      SameSlots(v, w, a, b, n - 1);
      assert SameEntry(v[n - 1], w[n - 1]);
    }
  }

  lemma SameAfterDm(v: View, w: View, p: Packet)
    requires ViewOk(v) && ViewOk(w) && SameShown(v, w) && p.payload.Dm?
    ensures SameShown(ReceiveDm(v, p), ReceiveDm(w, p))
  {
    SameSlots(v.slots, w.slots, p.sender, p.payload.recipient, v.friendCount);
    hide SlotOf, Truncated;
    var k := SlotOf(v.slots, p.sender, p.payload.recipient, v.friendCount);
    if k >= 0 {
      assert SameEntry(v.slots[k], w.slots[k]);
    }
  }

  lemma SameAfter(v: View, w: View, p: Packet)
    requires ViewOk(v) && ViewOk(w) && SameShown(v, w)
    ensures SameShown(Apply(v, p), Apply(w, p))
  {
    hide ReceiveDm, Truncated;
    if p.payload.Dm? {
      SameAfterDm(v, w, p);
    } else if v.friendCount < |v.slots| {
      assert SameEntry(v.slots[v.friendCount], w.slots[w.friendCount]);
    }
  }

  /** Whatever the user types and submits and when, the lists and the places of the messages are those of the packets alone. */
  lemma {:induction false} TypingKeepsLists(v: View, xs: seq<Input>)
    requires ViewOk(v)
    ensures SameShown(AdvanceAll(v, xs), ApplyAll(v, Arrivals(xs)))
  {
    hide Apply;
    if xs != [] {
      var front, x := xs[..|xs| - 1], xs[|xs| - 1];
      TypingKeepsLists(v, front);
      if x.Arrival? {
        SameAfter(AdvanceAll(v, front), ApplyAll(v, Arrivals(front)), x.packet);
        assert Arrivals(xs)[..|Arrivals(xs)| - 1] == Arrivals(front);
      } else {
        assert Arrivals(xs) == Arrivals(front);
      }
    }
  }

  lemma SameFriendsShown(v: View, w: View)
    requires ViewOk(v) && ViewOk(w) && SameShown(v, w)
    ensures FriendsShown(v) == FriendsShown(w)
  {
    forall k | 0 <= k < v.friendCount ensures FriendsShown(v)[k] == FriendsShown(w)[k] {
      assert SameEntry(v.slots[k], w.slots[k]);
    }
  }

  /** As long as no packet is about the account, typing changes the form alone. */
  lemma {:induction false} TypingKeepsAllButForm(v: View, xs: seq<Input>)
    requires ViewOk(v) && forall p :: p in Arrivals(xs) ==> !p.payload.Auth?
    ensures AdvanceAll(v, xs) == ApplyAll(v, Arrivals(xs)).(form := AdvanceAll(v, xs).form)
  {
    hide Apply;
    if xs != [] {
      var front, x := xs[..|xs| - 1], xs[|xs| - 1];
      forall p | p in Arrivals(front) ensures p in Arrivals(xs) {}
      TypingKeepsAllButForm(v, front);
      if x.Arrival? {
        assert x.packet in Arrivals(xs);
        FormIsAside(ApplyAll(v, Arrivals(front)), AdvanceAll(v, front).form, x.packet);
        assert Arrivals(xs)[..|Arrivals(xs)| - 1] == Arrivals(front);
      } else {
        assert Arrivals(xs) == Arrivals(front);
      }
    }
  }

  lemma FormIsAside(v: View, form: string, p: Packet)
    requires ViewOk(v) && !p.payload.Auth?
    ensures Apply(v.(form := form), p) == Apply(v, p).(form := form) && Apply(v, p).form == v.form
  {}
}
