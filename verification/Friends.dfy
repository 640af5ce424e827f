/**
 The friends table of `db/schema.sql` and its operations in `server/db.c`.

 A friendship is one row in one of two directions.  The table is proved to implement one small
 state machine per unordered pair of users.
 */
module Friends {
  import opened Names

  datatype UserRow = UserRow(id: int, name: string, status: string)

  datatype FriendRow = FriendRow(user: int, friend: int, accepted: bool) {
    predicate From(u: int, f: int) {
      user == u && friend == f
    }

    predicate Joins(a: int, b: int) {
      From(a, b) || From(b, a)
    }
  }

  function UserIds(users: seq<UserRow>): seq<int> {
    Map((u: UserRow) => u.id, users)
  }

  /** Two rows about different unordered pairs. */
  predicate OtherPair(r: FriendRow, s: FriendRow) {
    !r.Joins(s.user, s.friend)
  }

  /** No self row, and at most one row for each unordered pair, in either direction. */
  ghost predicate TableOk(t: seq<FriendRow>) {
    && (forall r :: r in t ==> r.user != r.friend)
    && Pairwise(OtherPair, t)
  }

  // ------------------------------------------------------------ the operations on rows

  /** `is_accepted` of the row from `u` to `f`, or -1 when there is none. */
  function Status(t: seq<FriendRow>, u: int, f: int): (st: int)
    ensures -1 <= st <= 1
  {
    if FriendRow(u, f, true) in t then 1 else if FriendRow(u, f, false) in t then 0 else -1
  }

  /** DELETE ... WHERE user_id = u AND friend_id = f AND is_accepted = 0 */
  function ErasePending(t: seq<FriendRow>, u: int, f: int): seq<FriendRow> {
    Filter((r: FriendRow) => !(r.From(u, f) && !r.accepted), t)
  }

  /** DELETE ... WHERE the row joins u and f, in either direction */
  function EraseBoth(t: seq<FriendRow>, u: int, f: int): seq<FriendRow> {
    Filter((r: FriendRow) => !r.Joins(u, f), t)
  }

  /** UPDATE ... SET is_accepted = 1 WHERE user_id = u AND friend_id = f */
  function SetAccepted(t: seq<FriendRow>, u: int, f: int): seq<FriendRow> {
    Map((r: FriendRow) => if r.From(u, f) then r.(accepted := true) else r, t)
  }

  /** `db_accept_friend_request`: `me` accepts what `f` asked. */
  function Accept(t: seq<FriendRow>, me: int, f: int): (int, seq<FriendRow>) {
    var st := Status(t, f, me);
    if st == -1 then (-1, t)
    else if st == 1 then (-2, t)
    else (0, ErasePending(SetAccepted(t, f, me), me, f))
  }

  /** `db_send_friend_request`; the insert fails on a duplicate row and on an unknown user. */
  function Ask(t: seq<FriendRow>, known: seq<int>, u: int, f: int): (int, seq<FriendRow>) {
    var same, reciprocal := Status(t, u, f), Status(t, f, u);
    if same == 1 || reciprocal == 1 then (-2, t)
    else if reciprocal == 0 then
      var (rc, t') := Accept(t, u, f);
      (if rc == 0 then 1 else -1, t')
    else if same == 0 || u !in known || f !in known then (-1, t)
    else (0, t + [FriendRow(u, f, false)])
  }

  /** `db_remove_friendship` */
  function Remove(t: seq<FriendRow>, u: int, f: int): (int, seq<FriendRow>) {
    if Status(t, u, f) != 1 && Status(t, f, u) != 1 then (-1, t) else (0, EraseBoth(t, u, f))
  }

  /** `db_reject_friend_request`: `me` rejects what `f` asked. */
  function Reject(t: seq<FriendRow>, me: int, f: int): (int, seq<FriendRow>) {
    if Status(t, f, me) != 0 then (-1, t) else (0, ErasePending(t, f, me))
  }

  // ------------------------------------------------------------ requests as events

  datatype Verb = Asks | Accepts | Rejects | Removes

  /** What user `who` asks for about user `whom`, and the ids of the users there are at that time. */
  datatype FriendOp = FriendOp(verb: Verb, who: int, whom: int, known: seq<int>) {
    predicate About(a: int, b: int) {
      (who == a && whom == b) || (who == b && whom == a)
    }
  }

  /** The table operation behind a request; `handle_social_packet` refuses to ask oneself. */
  function Perform(op: FriendOp, t: seq<FriendRow>): (int, seq<FriendRow>) {
    match op.verb
    case Asks => if op.who == op.whom then (-1, t) else Ask(t, op.known, op.who, op.whom)
    case Accepts => Accept(t, op.who, op.whom)
    case Rejects => Reject(t, op.who, op.whom)
    case Removes => Remove(t, op.who, op.whom)
  }

  function RunRequests(ops: seq<FriendOp>, t: seq<FriendRow>): seq<FriendRow> {
    if ops == [] then t else Perform(ops[|ops| - 1], RunRequests(ops[..|ops| - 1], t)).1
  }

  // ------------------------------------------------------------ the reference machine of one pair

  /** What two users are to each other; `from` is the one who asked. */
  datatype Pair = Strangers | Asked(from: int) | Together(from: int)

  /** One request in the life of a pair: its return code and the pair afterwards. */
  function PairStep(p: Pair, op: FriendOp): (int, Pair) {
    if op.who == op.whom then (-1, p)
    else
      match op.verb
      case Asks => (
        match p
        case Together(_) => (-2, p)
        case Asked(from) => if from == op.whom then (1, Together(from)) else (-1, p)
        case Strangers => if op.who in op.known && op.whom in op.known then (0, Asked(op.who)) else (-1, p))
      case Accepts => (
        match p
        case Together(from) => if from == op.whom then (-2, p) else (-1, p)
        case Asked(from) => if from == op.whom then (0, Together(from)) else (-1, p)
        case Strangers => (-1, p))
      case Rejects => if p == Asked(op.whom) then (0, Strangers) else (-1, p)
      case Removes => if p.Together? then (0, Strangers) else (-1, p)
  }

  function PairRun(p: Pair, ops: seq<FriendOp>): Pair {
    if ops == [] then p else PairStep(PairRun(p, ops[..|ops| - 1]), ops[|ops| - 1]).1
  }

  /** The pair that the table describes. */
  function PairOf(t: seq<FriendRow>, a: int, b: int): Pair {
    if Status(t, a, b) == 1 then Together(a)
    else if Status(t, b, a) == 1 then Together(b)
    else if Status(t, a, b) == 0 then Asked(a)
    else if Status(t, b, a) == 0 then Asked(b)
    else Strangers
  }

  /** In a good table the pair determines its rows and the rows determine the pair. */
  lemma RowsOfPair(t: seq<FriendRow>, a: int, b: int)
    requires TableOk(t)
    ensures FriendRow(a, b, true) in t <==> a != b && PairOf(t, a, b) == Together(a)
    ensures FriendRow(a, b, false) in t <==> a != b && PairOf(t, a, b) == Asked(a)
    ensures a == b ==> PairOf(t, a, b) == Strangers
    ensures PairOf(t, a, b) == PairOf(t, b, a)
  {}

  lemma OneRowPerPair(t: seq<FriendRow>, r: FriendRow, s: FriendRow)
    requires Pairwise(OtherPair, t) && r in t && s in t && r.Joins(s.user, s.friend)
    ensures r == s
  {}

  // ------------------------------------------------------------ the table implements the machine

  lemma SetAcceptedMembers(t: seq<FriendRow>, u: int, f: int)
    ensures forall r :: r in SetAccepted(t, u, f) <==>
      if r.From(u, f) then r.accepted && exists a :: FriendRow(u, f, a) in t else r in t
  {}

  lemma SetAcceptedOk(t: seq<FriendRow>, u: int, f: int)
    requires TableOk(t)
    ensures TableOk(SetAccepted(t, u, f))
  {}

  lemma FilterOk(keep: FriendRow -> bool, t: seq<FriendRow>)
    requires TableOk(t)
    ensures TableOk(Filter(keep, t))
  {
    FilterMembers(keep, t);
    FilterKeepsPairwise(OtherPair, keep, t);
  }

  /** Every request keeps the table good. */
  lemma PerformKeepsTable(op: FriendOp, t: seq<FriendRow>)
    requires TableOk(t)
    ensures TableOk(Perform(op, t).1)
  {
    var (u, f) := (op.who, op.whom);
    SetAcceptedOk(t, f, u);
    FilterOk((r: FriendRow) => !(r.From(u, f) && !r.accepted), SetAccepted(t, f, u));
    FilterOk((r: FriendRow) => !(r.From(f, u) && !r.accepted), t);
    FilterOk((r: FriendRow) => !r.Joins(u, f), t);
    var t' := t + [FriendRow(u, f, false)];
    if Perform(op, t).1 == t' {
      forall i, j | 0 <= i < j < |t'| ensures OtherPair(t'[i], t'[j]) {
        assert t'[i] in t;
      }
    }
  }

  /** Accepting turns the one pending row and touches no other. */
  lemma AcceptStatus(t: seq<FriendRow>, me: int, f: int, a: int, b: int)
    requires TableOk(t) && Status(t, f, me) == 0
    ensures Status(Accept(t, me, f).1, a, b) == if (a, b) == (f, me) then 1 else Status(t, a, b)
  {
    RowsOfPair(t, me, f);
    SetAcceptedMembers(t, f, me);
    FilterMembers((r: FriendRow) => !(r.From(me, f) && !r.accepted), SetAccepted(t, f, me));
  }

  lemma RejectStatus(t: seq<FriendRow>, me: int, f: int, a: int, b: int)
    requires TableOk(t) && Status(t, f, me) == 0
    ensures Status(Reject(t, me, f).1, a, b) == if (a, b) == (f, me) then -1 else Status(t, a, b)
  {
    RowsOfPair(t, f, me);
    FilterMembers((r: FriendRow) => !(r.From(f, me) && !r.accepted), t);
  }

  lemma RemoveStatus(t: seq<FriendRow>, u: int, f: int, a: int, b: int)
    ensures Status(EraseBoth(t, u, f), a, b) == if (a == u && b == f) || (a == f && b == u) then -1 else Status(t, a, b)
  {
    FilterMembers((r: FriendRow) => !r.Joins(u, f), t);
  }

  /** The one-request refinement, for two users `a`, `b` who may or may not be the pair at hand. */
  ghost predicate Refines(op: FriendOp, t: seq<FriendRow>, a: int, b: int) {
    var (rc, t') := Perform(op, t);
    && rc == PairStep(PairOf(t, op.who, op.whom), op).0
    && PairOf(t', a, b) == (if op.About(a, b) then PairStep(PairOf(t, a, b), op).1 else PairOf(t, a, b))
    && (rc < 0 ==> t' == t)
  }

  lemma AskRefines(op: FriendOp, t: seq<FriendRow>, a: int, b: int)
    requires TableOk(t) && op.verb.Asks?
    ensures Refines(op, t, a, b)
  {
    var (u, f) := (op.who, op.whom);
    RowsOfPair(t, u, f);
    RowsOfPair(t, a, b);
    if Status(t, f, u) == 0 {
      AcceptStatus(t, u, f, a, b);
      AcceptStatus(t, u, f, b, a);
    }
  }

  lemma AnswerRefines(op: FriendOp, t: seq<FriendRow>, a: int, b: int)
    requires TableOk(t) && (op.verb.Accepts? || op.verb.Rejects?)
    ensures Refines(op, t, a, b)
  {
    var (u, f) := (op.who, op.whom);
    RowsOfPair(t, u, f);
    RowsOfPair(t, a, b);
    if Status(t, f, u) == 0 {
      AcceptStatus(t, u, f, a, b);
      AcceptStatus(t, u, f, b, a);
      RejectStatus(t, u, f, a, b);
      RejectStatus(t, u, f, b, a);
    }
  }

  /**
   Refinement: a request returns what the pair machine returns, moves its own pair as the machine
   does and no other pair, and leaves the table alone whenever it returns an error.
   */
  lemma PerformRefines(op: FriendOp, t: seq<FriendRow>, a: int, b: int)
    requires TableOk(t)
    ensures Refines(op, t, a, b)
  {
    match op.verb
    case Asks => AskRefines(op, t, a, b);
    case Accepts => AnswerRefines(op, t, a, b);
    case Rejects => AnswerRefines(op, t, a, b);
    case Removes =>
      RowsOfPair(t, op.who, op.whom);
      RowsOfPair(t, a, b);
      RemoveStatus(t, op.who, op.whom, a, b);
      RemoveStatus(t, op.who, op.whom, b, a);
  }

  /** In every run from a good table, and so from the empty one, the table stays good. */
  lemma {:induction false} RunKeepsTable(ops: seq<FriendOp>, t: seq<FriendRow>)
    requires TableOk(t)
    ensures TableOk(RunRequests(ops, t))
  {
    if ops != [] {
      RunKeepsTable(ops[..|ops| - 1], t);
      PerformKeepsTable(ops[|ops| - 1], RunRequests(ops[..|ops| - 1], t));
    }
  }

  /** Pairs are independent: after any run each pair is what its own requests alone make of it. */
  lemma {:induction false} RunIsPairByPair(ops: seq<FriendOp>, t: seq<FriendRow>, a: int, b: int)
    requires TableOk(t)
    ensures PairOf(RunRequests(ops, t), a, b) == PairRun(PairOf(t, a, b), Filter((op: FriendOp) => op.About(a, b), ops))
  {
    if ops != [] {
      var front, last := ops[..|ops| - 1], ops[|ops| - 1];
      var own := Filter((op: FriendOp) => op.About(a, b), front);
      RunIsPairByPair(front, t, a, b);
      RunKeepsTable(front, t);
      PerformRefines(last, RunRequests(front, t), a, b);
      assert (own + [last])[..|own|] == own && own + [] == own;
    }
  }

  /** Good tables that describe the same pairs hold the same rows, each once. */
  lemma SamePairsSameRows(t: seq<FriendRow>, t': seq<FriendRow>)
    requires TableOk(t) && TableOk(t')
    requires forall a, b :: PairOf(t, a, b) == PairOf(t', a, b)
    ensures multiset(t) == multiset(t')
  {
    forall r: FriendRow ensures multiset(t)[r] == multiset(t')[r] {
      RowsOfPair(t, r.user, r.friend);
      RowsOfPair(t', r.user, r.friend);
      assert r == FriendRow(r.user, r.friend, true) || r == FriendRow(r.user, r.friend, false);
      AtMostOnce(t, r);
      AtMostOnce(t', r);
    }
  }

  lemma {:induction false} AtMostOnce(t: seq<FriendRow>, r: FriendRow)
    requires Pairwise(OtherPair, t)
    ensures multiset(t)[r] == if r in t then 1 else 0
  {
    if t != [] {
      var front, last := t[..|t| - 1], t[|t| - 1];
      assert t == front + [last];
      AtMostOnce(front, r);
    }
  }

  /** Requests about different pairs commute, in the rows they leave and in the codes they return. */
  lemma RequestsCommute(op: FriendOp, op': FriendOp, t: seq<FriendRow>)
    requires TableOk(t) && !op.About(op'.who, op'.whom)
    ensures multiset(RunRequests([op, op'], t)) == multiset(RunRequests([op', op], t))
    ensures Perform(op', Perform(op, t).1).0 == Perform(op', t).0
  {
    forall a, b ensures PairOf(RunRequests([op, op'], t), a, b) == PairOf(RunRequests([op', op], t), a, b) {
      RunTwo(op, op', t, a, b);
      RunTwo(op', op, t, a, b);
    }
    RunKeepsTable([op, op'], t);
    RunKeepsTable([op', op], t);
    SamePairsSameRows(RunRequests([op, op'], t), RunRequests([op', op], t));
    PerformKeepsTable(op, t);
    PerformRefines(op, t, op'.who, op'.whom);
    PerformRefines(op', t, op'.who, op'.whom);
    PerformRefines(op', Perform(op, t).1, op'.who, op'.whom);
  }

  lemma RunTwo(op: FriendOp, op': FriendOp, t: seq<FriendRow>, a: int, b: int)
    requires TableOk(t)
    ensures RunRequests([op, op'], t) == Perform(op', Perform(op, t).1).1
    ensures var p := if op.About(a, b) then PairStep(PairOf(t, a, b), op).1 else PairOf(t, a, b);
            PairOf(RunRequests([op, op'], t), a, b) == if op'.About(a, b) then PairStep(p, op').1 else p
  {
    assert [op][..0] == [] && RunRequests([op], t) == Perform(op, t).1;
    assert [op, op'][..1] == [op];
    PerformKeepsTable(op, t);
    PerformRefines(op, t, a, b);
    PerformRefines(op', Perform(op, t).1, a, b);
  }

  // ------------------------------------------------------------ what a user sees

  /** An entry of a friend list: 0 for outgoing, 1 for incoming, 2 for accepted. */
  datatype FriendEntry = FriendEntry(id: int, name: string, kind: int)

  function NameOf(users: seq<UserRow>, id: int): string {
    if users == [] then ""
    else if users[|users| - 1].id == id then users[|users| - 1].name
    else NameOf(users[..|users| - 1], id)
  }

  /** `db_list_friend_requests`: the rows to `me`, then the rows from `me`, each joined with the other user. */
  function FriendListing(t: seq<FriendRow>, users: seq<UserRow>, me: int): seq<FriendEntry> {
    Map((r: FriendRow) => FriendEntry(r.user, NameOf(users, r.user), if r.accepted then 2 else 1),
        Filter((r: FriendRow) => r.friend == me && r.user in UserIds(users), t))
    + Map((r: FriendRow) => FriendEntry(r.friend, NameOf(users, r.friend), if r.accepted then 2 else 0),
          Filter((r: FriendRow) => r.user == me && r.friend in UserIds(users), t))
  }

  /** Foreign keys of the table: both ends of a row are users. */
  ghost predicate References(t: seq<FriendRow>, users: seq<UserRow>) {
    forall r :: r in t ==> r.user in UserIds(users) && r.friend in UserIds(users)
  }

  function KindFor(p: Pair, me: int): int {
    if p.Together? then 2 else if p == Asked(me) then 0 else 1
  }

  /** A user's list has an entry for exactly the users the user is not a stranger to, of the kind the pair says. */
  lemma ListingShowsPairs(t: seq<FriendRow>, users: seq<UserRow>, me: int, e: FriendEntry)
    requires TableOk(t) && References(t, users)
    ensures e in FriendListing(t, users, me) <==>
              PairOf(t, me, e.id) != Strangers && e.kind == KindFor(PairOf(t, me, e.id), me) && e.name == NameOf(users, e.id)
  {
    var toMe := (r: FriendRow) => r.friend == me && r.user in UserIds(users);
    var fromMe := (r: FriendRow) => r.user == me && r.friend in UserIds(users);
    FilterMembers(toMe, t);
    FilterMembers(fromMe, t);
    RowsOfPair(t, me, e.id);
    RowsOfPair(t, e.id, me);
    var incoming := Map((r: FriendRow) => FriendEntry(r.user, NameOf(users, r.user), if r.accepted then 2 else 1), Filter(toMe, t));
    var outgoing := Map((r: FriendRow) => FriendEntry(r.friend, NameOf(users, r.friend), if r.accepted then 2 else 0), Filter(fromMe, t));
    if e in incoming {
      var i :| 0 <= i < |incoming| && incoming[i] == e;
      assert Filter(toMe, t)[i] in Filter(toMe, t);
    } else if e in outgoing {
      var i :| 0 <= i < |outgoing| && outgoing[i] == e;
      assert Filter(fromMe, t)[i] in Filter(fromMe, t);
    }
  }

  /** Two strangers who ask each other, in either order, end as friends in both lists. */
  lemma MutualRequestsBefriend(t: seq<FriendRow>, users: seq<UserRow>, a: int, b: int)
    requires TableOk(t) && References(t, users) && a != b && a in UserIds(users) && b in UserIds(users)
    requires PairOf(t, a, b) == Strangers
    ensures var t' := RunRequests([FriendOp(Asks, a, b, UserIds(users)), FriendOp(Asks, b, a, UserIds(users))], t);
            && FriendEntry(b, NameOf(users, b), 2) in FriendListing(t', users, a)
            && FriendEntry(a, NameOf(users, a), 2) in FriendListing(t', users, b)
  {
    var ops := [FriendOp(Asks, a, b, UserIds(users)), FriendOp(Asks, b, a, UserIds(users))];
    RunTwo(ops[0], ops[1], t, a, b);
    RunKeepsTable(ops, t);
    PerformKeepsReferences(ops[0], users, t);
    PerformKeepsReferences(ops[1], users, Perform(ops[0], t).1);
    var t' := RunRequests(ops, t);
    RowsOfPair(t', a, b);
    ListingShowsPairs(t', users, a, FriendEntry(b, NameOf(users, b), 2));
    ListingShowsPairs(t', users, b, FriendEntry(a, NameOf(users, a), 2));
  }

  lemma PerformKeepsReferences(op: FriendOp, users: seq<UserRow>, t: seq<FriendRow>)
    requires References(t, users) && (op.verb.Asks? ==> op.known == UserIds(users))
    ensures References(Perform(op, t).1, users)
  {
    var (u, f) := (op.who, op.whom);
    SetAcceptedKeepsReferences(t, users, f, u);
    FilterMembers((r: FriendRow) => !(r.From(u, f) && !r.accepted), SetAccepted(t, f, u));
    FilterMembers((r: FriendRow) => !(r.From(f, u) && !r.accepted), t);
    FilterMembers((r: FriendRow) => !r.Joins(u, f), t);
  }

  lemma SetAcceptedKeepsReferences(t: seq<FriendRow>, users: seq<UserRow>, u: int, f: int)
    requires References(t, users)
    ensures References(SetAccepted(t, u, f), users)
  {}
}
