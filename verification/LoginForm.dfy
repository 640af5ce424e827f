/**
 The login form of a client and the name it takes for its own.  The user edits and submits the form
 while packets arrive; an answer OK takes whatever the form holds when it arrives.
 */
module LoginForm {
  import opened Names
  import opened Protocol
  import opened ClientView

  // ------------------------------------------------------------ what the packets say about the account

  /** The answer to a login or a registration. */
  predicate IsLoginAnswer(p: Packet) {
    p.payload.Auth? && (p.payload.action == AUTH_LOGIN || p.payload.action == AUTH_REGISTER)
  }

  /** The answer to a logout, or the news that the user has logged in elsewhere. */
  predicate IsFarewell(p: Packet) {
    p.payload.Auth? && p.payload.action == AUTH_LOGOUT
  }

  /** How many logins and registrations were answered, how many of them OK, and the number of the answer in force, or -1. */
  datatype Standing = Standing(answers: nat, welcomes: nat, inForce: int)

  function Told(t: Standing, p: Packet): Standing {
    if IsWelcome(p) then Standing(t.answers + 1, t.welcomes + 1, t.answers)
    else if IsLoginAnswer(p) then t.(answers := t.answers + 1)
    else if IsFarewell(p) then t.(inForce := -1)
    else t
  }

  function StandingOf(ps: seq<Packet>): (t: Standing)
    ensures -1 <= t.inForce < t.answers && t.welcomes <= t.answers
  {
    if ps == [] then Standing(0, 0, -1) else Told(StandingOf(ps[..|ps| - 1]), ps[|ps| - 1])
  }

  lemma StandingAppend(ps: seq<Packet>, p: Packet)
    ensures StandingOf(ps + [p]) == Told(StandingOf(ps), p)
  {
    assert (ps + [p])[..|ps|] == ps;
  }

  // ------------------------------------------------------------ a client and its inputs

  /** A client after its inputs since it connected. */
  function Client(xs: seq<Input>): (v: View)
    ensures ViewOk(v)
  {
    AdvanceAll(Blank(), xs)
  }

  /** What it was told about its account. */
  function Heard(xs: seq<Input>): (t: Standing)
    ensures -1 <= t.inForce < t.answers && t.welcomes <= t.answers
  {
    StandingOf(Arrivals(xs))
  }

  /** The names that it sent, in order: an empty form is not sent. */
  function Submitted(xs: seq<Input>): (names: seq<string>)
    ensures forall n :: n in names ==> n != "" && |n| <= NAME_LEN
  {
    if xs == [] then []
    else
      var v := Client(xs[..|xs| - 1]);
      Submitted(xs[..|xs| - 1]) + if xs[|xs| - 1].Submit? && v.form != "" then [v.form] else []
  }

  lemma HeardAppend(xs: seq<Input>, x: Input)
    ensures Heard(xs + [x]) == if x.Arrival? then Told(Heard(xs), x.packet) else Heard(xs)
  {
    assert (xs + [x])[..|xs|] == xs;
    if x.Arrival? {
      StandingAppend(Arrivals(xs), x.packet);
    } else {
      assert Arrivals(xs) + [] == Arrivals(xs);
    }
  }

  lemma ClientAppend(xs: seq<Input>, x: Input)
    ensures Client(xs + [x]) == Advance(Client(xs), x)
  {
    assert (xs + [x])[..|xs|] == xs;
  }

  lemma SubmittedAppend(xs: seq<Input>, x: Input)
    ensures Submitted(xs + [x]) == Submitted(xs) + if x.Submit? && Client(xs).form != "" then [Client(xs).form] else []
  {
    assert (xs + [x])[..|xs|] == xs;
  }

  /** The client stores one name for each answer OK, and never drops one. */
  lemma {:induction false} NamesCountWelcomes(xs: seq<Input>)
    ensures |Client(xs).names| == Heard(xs).welcomes
  {
    if xs != [] {
      var front, x := xs[..|xs| - 1], xs[|xs| - 1];
      NamesCountWelcomes(front);
      assert xs == front + [x];
      HeardAppend(front, x);
      ClientAppend(front, x);
      NamesStep(Client(front), x);
      hide Client, Heard, Advance;
    }
  }

  lemma NamesStep(v: View, x: Input)
    requires ViewOk(v)
    ensures Advance(v, x).names == v.names + if x.Arrival? && IsWelcome(x.packet) then [v.form] else []
    ensures Advance(v, x).current
            == if x.Arrival? && IsWelcome(x.packet) then |v.names| else if x.Arrival? && IsFarewell(x.packet) then -1 else v.current
    ensures Advance(v, x).form
            == if x.Typing? then Truncated(x.form, NAME_LEN)
               else if x.Arrival? && (IsWelcome(x.packet) || IsFarewell(x.packet)) then "" else v.form
  {}

  // ------------------------------------------------------------ submissions and their answers

  /** The place of answer number `k` among the inputs. */
  function AnswerAt(xs: seq<Input>, k: nat): (b: nat)
    requires k < Heard(xs).answers
    ensures b < |xs|
  {
    if k < Heard(xs[..|xs| - 1]).answers then AnswerAt(xs[..|xs| - 1], k) else |xs| - 1
  }

  lemma {:induction false} AnswerIs(xs: seq<Input>, k: nat)
    requires k < Heard(xs).answers
    ensures var b := AnswerAt(xs, k); xs[b].Arrival? && IsLoginAnswer(xs[b].packet) && Heard(xs[..b]).answers == k
  {
    hide Heard;
    NothingHeard();
    var front, x := xs[..|xs| - 1], xs[|xs| - 1];
    assert xs == front + [x];
    HeardAppend(front, x);
    if k < Heard(front).answers {
      AnswerIs(front, k);
      assert front[..AnswerAt(front, k)] == xs[..AnswerAt(front, k)];
    }
  }

  lemma NothingHeard()
    ensures Heard([]) == Standing(0, 0, -1)
  {}

  /** The place of submission number `k`. */
  function SubmissionAt(xs: seq<Input>, k: nat): (a: nat)
    requires k < |Submitted(xs)|
    ensures a < |xs|
  {
    if k < |Submitted(xs[..|xs| - 1])| then SubmissionAt(xs[..|xs| - 1], k) else |xs| - 1
  }

  lemma {:induction false} SubmissionIs(xs: seq<Input>, k: nat)
    requires k < |Submitted(xs)|
    ensures var a := SubmissionAt(xs, k); xs[a].Submit? && Client(xs[..a]).form == Submitted(xs)[k] && |Submitted(xs[..a])| == k
  {
    hide Submitted, Client;
    NothingSubmitted();
    var front, x := xs[..|xs| - 1], xs[|xs| - 1];
    assert xs == front + [x];
    SubmittedAppend(front, x);
    if k < |Submitted(front)| {
      SubmissionIs(front, k);
      assert front[..SubmissionAt(front, k)] == xs[..SubmissionAt(front, k)];
    }
  }

  lemma NothingSubmitted()
    ensures Submitted([]) == []
  {}

  /** No answer comes before its submission. */
  ghost predicate OnTime(xs: seq<Input>) {
    forall n :: 0 <= n <= |xs| ==> Heard(xs[..n]).answers <= |Submitted(xs[..n])|
  }

  lemma {:induction false} SubmittedGrows(xs: seq<Input>, n: nat)
    requires n <= |xs|
    ensures Submitted(xs[..n]) <= Submitted(xs)
    decreases |xs|
  {
    if n < |xs| {
      SubmittedGrows(xs[..|xs| - 1], n);
      assert xs[..|xs| - 1][..n] == xs[..n];
    } else {
      assert xs[..n] == xs;
    }
  }

  /** The first inputs, one at a time. */
  lemma OneMore(xs: seq<Input>, n: nat)
    requires n < |xs|
    ensures xs[..n + 1] == xs[..n] + [xs[n]]
  {}

  lemma SubmittedFirst(xs: seq<Input>, k: nat)
    requires OnTime(xs) && k < Heard(xs).answers
    ensures k < |Submitted(xs)| && SubmissionAt(xs, k) < AnswerAt(xs, k)
  {
    hide Heard, Submitted, Client, AnswerAt, SubmissionAt;
    var b := AnswerAt(xs, k);
    AnswerIs(xs, k);
    OneMore(xs, b);
    HeardAppend(xs[..b], xs[b]);
    AnswerCounts(Heard(xs[..b]), xs[b].packet);
    SubmittedAppend(xs[..b], xs[b]);
    assert Heard(xs[..b + 1]).answers <= |Submitted(xs[..b + 1])|;
    assert k < |Submitted(xs[..b])|;
    SubmittedGrows(xs, b);
    SubmissionIs(xs, k);
    SubmittedMonotone(xs, b, SubmissionAt(xs, k));
  }

  lemma SubmittedMonotone(xs: seq<Input>, n: nat, m: nat)
    requires n <= |xs| && m <= |xs|
    ensures n <= m ==> |Submitted(xs[..n])| <= |Submitted(xs[..m])|
  {
    hide Submitted;
    if n <= m {
      SubmittedGrows(xs[..m], n);
      assert xs[..m][..n] == xs[..n];
    }
  }

  lemma AnswerCounts(t: Standing, p: Packet)
    requires IsLoginAnswer(p)
    ensures Told(t, p).answers == t.answers + 1
  {}

  // ------------------------------------------------------------ the own name

  /** The client's own name is what its form held when the answer in force arrived. */
  lemma {:induction false} MeIsForm(xs: seq<Input>)
    ensures var k := Heard(xs).inForce;
            Client(xs).Me() == if k < 0 then None else Some(Client(xs[..AnswerAt(xs, k)]).form)
  {
    if xs != [] {
      var front, x := xs[..|xs| - 1], xs[|xs| - 1];
      MeIsForm(front);
      assert xs == front + [x];
      HeardAppend(front, x);
      ClientAppend(front, x);
      NamesStep(Client(front), x);
      hide Client, Heard, Advance;
      if x.Arrival? && IsWelcome(x.packet) {
        AnswerIsLast(front, x);
      } else if Heard(xs).inForce >= 0 {
        AnswerIsEarlier(front, x, Heard(xs).inForce);
      }
    }
  }

  lemma AnswerIsLast(front: seq<Input>, x: Input)
    requires x.Arrival? && IsLoginAnswer(x.packet)
    ensures Heard(front).answers < Heard(front + [x]).answers && (front + [x])[..AnswerAt(front + [x], Heard(front).answers)] == front
  {
    HeardAppend(front, x);
    hide Heard;
    assert (front + [x])[..|front|] == front;
  }

  lemma AnswerIsEarlier(front: seq<Input>, x: Input, k: nat)
    requires k < Heard(front).answers
    ensures k < Heard(front + [x]).answers
    ensures (front + [x])[..AnswerAt(front + [x], k)] == front[..AnswerAt(front, k)]
  {
    HeardAppend(front, x);
    hide Heard;
    assert (front + [x])[..|front|] == front;
  }

  // ------------------------------------------------------------ when the form still holds the name

  /** What changes the form: an edit, an answer OK, or a farewell. */
  predicate TouchesForm(x: Input) {
    x.Typing? || (x.Arrival? && (IsWelcome(x.packet) || IsFarewell(x.packet)))
  }

  /** The inputs leave the form alone from place `j` on. */
  ghost predicate UntouchedFrom(xs: seq<Input>, j: nat) {
    forall i :: j <= i < |xs| ==> !TouchesForm(xs[i])
  }

  /** Nothing touches the form, or the last thing that does is an edit that leaves it at the name. */
  ghost predicate Holds(xs: seq<Input>, name: string) {
    UntouchedFrom(xs, 0) || exists j :: 0 <= j < |xs| && xs[j].Typing? && Truncated(xs[j].form, NAME_LEN) == name && UntouchedFrom(xs, j + 1)
  }

  /** The form after some inputs: whatever touched it last. */
  lemma {:induction false} FormAfter(v: View, xs: seq<Input>)
    requires ViewOk(v) && v.form != ""
    ensures AdvanceAll(v, xs).form == v.form <==> Holds(xs, v.form)
    ensures UntouchedFrom(xs, 0) ==> AdvanceAll(v, xs).form == v.form
  {
    if xs != [] {
      var front, x := xs[..|xs| - 1], xs[|xs| - 1];
      FormAfter(v, front);
      NamesStep(AdvanceAll(v, front), x);
      hide Advance, AdvanceAll;
      HoldsStep(front, x, v.form);
      assert xs == front + [x];
    }
  }

  lemma UntouchedStep(front: seq<Input>, x: Input, j: nat)
    requires j <= |front|
    ensures UntouchedFrom(front + [x], j) <==> UntouchedFrom(front, j) && !TouchesForm(x)
  {
    hide TouchesForm;
    var xs := front + [x];
    assert xs[|front|] == x;
    forall i | j <= i < |front| ensures xs[i] == front[i] {}
    if UntouchedFrom(xs, j) {
      forall i | j <= i < |front| ensures !TouchesForm(front[i]) {
        assert !TouchesForm(xs[i]);
      }
    }
  }

  lemma HoldsStep(front: seq<Input>, x: Input, name: string)
    requires name != ""
    ensures Holds(front + [x], name)
            <==> if x.Typing? then Truncated(x.form, NAME_LEN) == name else !TouchesForm(x) && Holds(front, name)
    ensures UntouchedFrom(front + [x], 0) <==> UntouchedFrom(front, 0) && !TouchesForm(x)
  {
    hide TouchesForm, Truncated;
    var xs := front + [x];
    TypingTouches(x);
    forall j | 0 <= j <= |front| ensures UntouchedFrom(xs, j) <==> UntouchedFrom(front, j) && !TouchesForm(x) {
      UntouchedStep(front, x, j);
    }
    assert UntouchedFrom(xs, |front| + 1);
    hide UntouchedFrom;
    assert xs[|front|] == x && forall j :: 0 <= j < |front| ==> xs[j] == front[j];
    if Holds(front, name) && !UntouchedFrom(front, 0) && !TouchesForm(x) {
      var j :| 0 <= j < |front| && front[j].Typing? && Truncated(front[j].form, NAME_LEN) == name && UntouchedFrom(front, j + 1);
      assert xs[j].Typing? && UntouchedFrom(xs, j + 1);
    }
    if Holds(xs, name) && !UntouchedFrom(xs, 0) {
      var j :| 0 <= j < |xs| && xs[j].Typing? && Truncated(xs[j].form, NAME_LEN) == name && UntouchedFrom(xs, j + 1);
      if j < |front| {
        assert front[j].Typing? && UntouchedFrom(front, j + 1);
      }
    }
  }

  lemma TypingTouches(x: Input)
    ensures x.Typing? ==> TouchesForm(x)
  {}

  /** What happens to the form between submission number `k` and its answer. */
  function Between(xs: seq<Input>, k: nat): seq<Input>
    requires k < |Submitted(xs)| && k < Heard(xs).answers
  {
    var a, b := SubmissionAt(xs, k), AnswerAt(xs, k);
    if a < b then xs[a + 1..b] else []
  }

  /** When an answer arrives the form holds the submitted name exactly if nothing touched it in between, or an edit put it back. */
  lemma FormAtAnswer(xs: seq<Input>, k: nat)
    requires OnTime(xs) && k < Heard(xs).answers
    ensures k < |Submitted(xs)|
    ensures Client(xs[..AnswerAt(xs, k)]).form == Submitted(xs)[k] <==> Holds(Between(xs, k), Submitted(xs)[k])
  {
    hide Heard, Submitted, OnTime, Client, AnswerAt, SubmissionAt, Holds;
    SubmittedFirst(xs, k);
    SubmissionIs(xs, k);
    var a, b := SubmissionAt(xs, k), AnswerAt(xs, k);
    assert Submitted(xs)[k] in Submitted(xs);
    OneMore(xs, a);
    ClientAppend(xs[..a], xs[a]);
    assert xs[..b] == xs[..a + 1] + xs[a + 1..b];
    ClientGoesOn(xs[..a + 1], xs[a + 1..b]);
    FormAfter(Client(xs[..a + 1]), xs[a + 1..b]);
  }

  lemma ClientGoesOn(xs: seq<Input>, ys: seq<Input>)
    ensures Client(xs + ys) == AdvanceAll(Client(xs), ys)
  {
    AdvanceAppend(Blank(), xs, ys);
  }

  /**
   The own name, for every interleaving of edits, submissions and arrivals: a client that an answer OK has
   in force takes the name it submitted for its own if and only if, between that submission and its answer,
   no other answer OK and no farewell came and the form was not edited, or was last edited back to the name.
   */
  lemma OwnNameIsSubmitted(xs: seq<Input>)
    requires OnTime(xs) && Heard(xs).inForce >= 0
    ensures var k := Heard(xs).inForce;
            && k < |Submitted(xs)|
            && (Client(xs).Me() == Some(Submitted(xs)[k]) <==> Holds(Between(xs, k), Submitted(xs)[k]))
  {
    hide Client, Heard, Submitted, Holds, Between, OnTime, AnswerAt;
    MeIsForm(xs);
    FormAtAnswer(xs, Heard(xs).inForce);
  }
}
