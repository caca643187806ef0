/**
 The dining-philosophers protocol of CAF: philosophers and chopsticks are actors that
 only exchange asynchronous messages.

 A seat owns two wires, one to each of its chopsticks. A wire is a pair of FIFO channels,
 requests one way and answers the other way. A message may stay on its channel for any time,
 which covers every arrival order at the receivers and every delay of the self-addressed
 messages. The table has any number N >= 2 of seats; the program starts five.
 */
module DiningPhilosophers {
  import opened Basics

  // -- The two kinds of actors -------------------------------------------------

  datatype Request = Take | Put
  datatype Stick = Available | Taken(user: nat)

  datatype Phase = Thinking | Hungry | Granted | Denied | Eating
  datatype Side = Left | Right
  datatype SelfMail = Eat | Think
  datatype Mail = Self(what: SelfMail) | Answer(from: Side, granted: bool)

  /** The current behavior of a chopstick and its answer to a request. */
  function StickReact(stick: Stick, sender: nat, request: Request): (r: (Stick, Option<bool>))
  {
    match (stick, request)
    case (Available, Take) => (Taken(sender), Some(true))
    case (Available, Put) => (Available, None)  // the "unexpected 'put'" branch
    case (Taken(_), Take) => (stick, Some(false))
    case (Taken(user), Put) => (if user == sender then Available else stick, None)
  }

  /** What a philosopher sends while handling one message. */
  datatype Effect = Effect(phase: Phase, toLeft: seq<Request>, toRight: seq<Request>, toSelf: seq<SelfMail>)

  /** The five behaviors; None is the catch-all handler that stashes the message. */
  function Behave(phase: Phase, mail: Mail): (r: Option<Effect>)
  {
    match (phase, mail)
    case (Thinking, Self(Eat)) => Some(Effect(Hungry, [Take], [Take], []))
    case (Hungry, Answer(_, granted)) => Some(Effect(if granted then Granted else Denied, [], [], []))
    case (Granted, Answer(from, granted)) =>
      if granted then Some(Effect(Eating, [], [], [Think]))
      else if from == Left then Some(Effect(Thinking, [], [Put], [Eat]))
      else Some(Effect(Thinking, [Put], [], [Eat]))
    case (Denied, Answer(from, granted)) =>
      if !granted then Some(Effect(Thinking, [], [], [Eat]))
      else if from == Left then Some(Effect(Thinking, [Put], [], [Eat]))
      else Some(Effect(Thinking, [], [Put], [Eat]))
    case (Eating, Self(Think)) => Some(Effect(Thinking, [Put], [Put], [Eat]))
    case _ => None
  }

  /** A chopstick actor: `become` pushes the taken behavior, `unbecome` pops it. */
  class Chopstick {
    var taken: bool
    var user: nat

    function View(): Stick
      reads this
    {
      if taken then Taken(user) else Available
    }

    constructor ()
      ensures View() == Available
    {
      taken, user := false, 0;
    }

    method Receive(sender: nat, request: Request) returns (answer: Option<bool>)
      modifies this
      ensures (View(), answer) == StickReact(old(View()), sender, request)
      ensures request == Take ==> answer == Some(!old(taken)) && taken && user == if old(taken) then old(user) else sender
      ensures request == Put ==> answer == None && user == old(user) && (taken <==> old(taken) && old(user) != sender)
    {
      answer := None;
      if request == Take {
        if taken {
          answer := Some(false);
        } else {
          taken, user := true, sender;
          answer := Some(true);
        }
      } else if taken {
        if user == sender {
          taken := false;
        }
      }
    }
  }

  /** A philosopher actor: its behavior and the stash of messages it could not handle. */
  class Philosopher {
    var phase: Phase
    var cache: seq<Mail>

    constructor ()
      ensures phase == Thinking && cache == []
    {
      phase, cache := Thinking, [];
    }

    method Receive(mail: Mail) returns (out: Effect, unstashed: seq<Mail>)
      modifies this
      ensures out.phase == phase
      ensures Behave(old(phase), mail) == Some(out) ==> unstashed == old(cache) && cache == []
      ensures Behave(old(phase), mail) != Some(out) ==>
                && Behave(old(phase), mail) == None && out == Effect(old(phase), [], [], [])
                && unstashed == [] && cache == old(cache) + [mail]
      ensures unstashed + cache == old(cache) + if cache == [] then [] else [mail]
      ensures cache == old(cache) + [mail] <==>
              !(old(phase) == Thinking && mail == Self(Eat)) && !(old(phase) == Eating && mail == Self(Think)) &&
              !(mail.Answer? && old(phase) in {Hungry, Granted, Denied})
    {
      var toLeft: seq<Request>, toRight: seq<Request>, toSelf: seq<SelfMail> := [], [], [];
      var handled := true;
      if phase == Thinking && mail == Self(Eat) {
        phase := Hungry;
        toLeft := [Take];
        toRight := [Take];
      } else if phase == Hungry && mail.Answer? {
        if mail.granted {
          phase := Granted;
        } else {
          phase := Denied;
        }
      } else if phase == Granted && mail.Answer? {
        if mail.granted {
          toSelf := [Think];
          phase := Eating;
        } else {
          if mail.from == Left {
            toRight := [Put];
          } else {
            toLeft := [Put];
          }
          toSelf := [Eat];
          phase := Thinking;
        }
      } else if phase == Denied && mail.Answer? {
        if mail.granted {
          if mail.from == Left {
            toLeft := [Put];
          } else {
            toRight := [Put];
          }
        }
        toSelf := [Eat];
        phase := Thinking;
      } else if phase == Eating && mail == Self(Think) {
        toLeft := [Put];
        toRight := [Put];
        toSelf := [Eat];
        phase := Thinking;
      } else {
        handled := false;
      }
      if handled {
        unstashed, cache := cache, [];
      } else {
        unstashed, cache := [], cache + [mail];
      }
      out := Effect(phase, toLeft, toRight, toSelf);
    }
  }

  // -- The table ---------------------------------------------------------------

  datatype Wire = Wire(requests: seq<Request>, answers: seq<bool>)

  /** A philosopher with everything that is in flight from it and to it. */
  datatype Seat = Seat(phase: Phase, left: Wire, right: Wire, timers: seq<SelfMail>,
                       cache: seq<Mail>, backlog: seq<Mail>)
  {
    function At(side: Side): Wire {
      if side == Left then left else right
    }

    function Put(side: Side, wire: Wire): Seat {
      if side == Left then this.(left := wire) else this.(right := wire)
    }

    /** One message is handled or stashed; handling returns the stash to the mailbox. */
    function Receive(mail: Mail): Seat {
      match Behave(phase, mail)
      case None => this.(cache := cache + [mail])
      case Some(e) =>
        Seat(e.phase,
             left.(requests := left.requests + e.toLeft),
             right.(requests := right.requests + e.toRight),
             timers + e.toSelf, [], cache + backlog)
    }
  }

  datatype Table = Table(seats: seq<Seat>, sticks: seq<Stick>)

  /** Seat p sits between chopsticks p and p + 1, the last seat wraps around. */
  function StickOf(n: nat, p: nat, side: Side): (c: nat)
    requires p < n
    ensures c < n
  {
    if side == Left then p else if p + 1 == n then 0 else p + 1
  }

  lemma RingWiring(n: nat, p: nat)
    requires p < n
    ensures StickOf(n, p, Left) == p && StickOf(n, p, Right) == (p + 1) % n
  {
  }

  const NEW_SEAT := Seat(Thinking, Wire([], []), Wire([], []), [Eat], [], [])

  function Initial(n: nat): Table {
    Table(seq(n, _ => NEW_SEAT), seq(n, _ => Available))
  }

  datatype Event =
    | StickReceives(seat: nat, side: Side)
    | SeatReceivesAnswer(seat: nat, side: Side)
    | SeatReceivesSelf(seat: nat, index: nat)
    | SeatReceivesBacklog(seat: nat)

  predicate Enabled(t: Table, e: Event)
  {
    && |t.seats| == |t.sticks| && e.seat < |t.seats|
    && var s := t.seats[e.seat];
    match e
    case StickReceives(_, side) => s.At(side).requests != []
    case SeatReceivesAnswer(_, side) => s.backlog == [] && s.At(side).answers != []
    case SeatReceivesSelf(_, index) => s.backlog == [] && index < |s.timers|
    case SeatReceivesBacklog(_) => s.backlog != []
  }

  function Step(t: Table, e: Event): (t': Table)
    requires Enabled(t, e)
  {
    var s := t.seats[e.seat];
    match e
    case StickReceives(p, side) =>
      var c := StickOf(|t.seats|, p, side);
      var w := s.At(side);
      var (stick, answer) := StickReact(t.sticks[c], p, w.requests[0]);
      var answers := if answer.Some? then w.answers + [answer.value] else w.answers;
      Table(t.seats[p := s.Put(side, Wire(w.requests[1..], answers))], t.sticks[c := stick])
    case SeatReceivesAnswer(p, side) =>
      var w := s.At(side);
      var s' := s.Put(side, w.(answers := w.answers[1..]));
      t.(seats := t.seats[p := s'.Receive(Answer(side, w.answers[0]))])
    case SeatReceivesSelf(p, index) =>
      var s' := s.(timers := s.timers[..index] + s.timers[index + 1..]);
      t.(seats := t.seats[p := s'.Receive(Self(s.timers[index]))])
    case SeatReceivesBacklog(p) =>
      var s' := s.(backlog := s.backlog[1..]);
      t.(seats := t.seats[p := s'.Receive(s.backlog[0])])
  }

  ghost predicate Reaches(t: Table, run: seq<Event>, u: Table)
    decreases |run|
  {
    if run == [] then t == u
    else Enabled(t, run[0]) && Reaches(Step(t, run[0]), run[1..], u)
  }

  // -- The invariant -----------------------------------------------------------

  predicate Owns(t: Table, p: nat, side: Side)
    requires |t.seats| == |t.sticks| && p < |t.seats|
  {
    t.sticks[StickOf(|t.seats|, p, side)] == Taken(p)
  }

  predicate Idle(w: Wire, owned: bool) {
    w == Wire([], []) && !owned
  }

  predicate Releasing(w: Wire, owned: bool) {
    w == Wire([Request.Put], []) && owned
  }

  predicate Held(w: Wire, owned: bool) {
    w == Wire([], []) && owned
  }

  /** A take is on its way, or its answer is. */
  predicate Waiting(w: Wire, owned: bool) {
    || (w == Wire([Take], []) && !owned)
    || (w == Wire([Request.Put, Take], []) && owned)
    || (w == Wire([], [true]) && owned)
    || (w == Wire([], [false]) && !owned)
  }

  predicate SeatOk(s: Seat, ownsLeft: bool, ownsRight: bool)
  {
    && s.cache == [] && s.backlog == []
    && match s.phase
       case Thinking =>
         && s.timers == [Eat]
         && (Idle(s.left, ownsLeft) || Releasing(s.left, ownsLeft))
         && (Idle(s.right, ownsRight) || Releasing(s.right, ownsRight))
       case Hungry => s.timers == [] && Waiting(s.left, ownsLeft) && Waiting(s.right, ownsRight)
       case Granted =>
         && s.timers == []
         && (|| (Held(s.left, ownsLeft) && Waiting(s.right, ownsRight))
             || (Waiting(s.left, ownsLeft) && Held(s.right, ownsRight)))
       case Denied =>
         && s.timers == []
         && (|| (Idle(s.left, ownsLeft) && Waiting(s.right, ownsRight))
             || (Waiting(s.left, ownsLeft) && Idle(s.right, ownsRight)))
       case Eating => s.timers == [Think] && Held(s.left, ownsLeft) && Held(s.right, ownsRight)
  }

  /** p is one of the two philosophers next to chopstick c. */
  predicate Neighbour(n: nat, p: nat, c: nat) {
    p < n && (StickOf(n, p, Left) == c || StickOf(n, p, Right) == c)
  }

  ghost predicate Inv(t: Table)
  {
    && |t.seats| == |t.sticks| >= 2
    && (forall p :: 0 <= p < |t.seats| ==> SeatOk(t.seats[p], Owns(t, p, Left), Owns(t, p, Right)))
    && (forall c :: 0 <= c < |t.sticks| && t.sticks[c].Taken? ==> Neighbour(|t.seats|, t.sticks[c].user, c))
  }

  lemma InitialInv(n: nat)
    requires n >= 2
    ensures Inv(Initial(n))
  {
  }

  /** A step of one seat leaves every other seat and its ownership as it was. */
  lemma StepFrame(t: Table, e: Event, q: nat)
    requires Inv(t) && Enabled(t, e) && q < |t.seats| && q != e.seat
    ensures |Step(t, e).seats| == |Step(t, e).sticks| == |t.seats|
    ensures Step(t, e).seats[q] == t.seats[q]
    ensures forall side :: Owns(Step(t, e), q, side) == Owns(t, q, side)
  {
  }

  /** A chopstick that handles the next request on a wire moves the wire to its next stage. */
  lemma StickReceivesWire(stick: Stick, p: nat, w: Wire)
    requires w.requests != []
    requires Releasing(w, stick == Taken(p)) || Waiting(w, stick == Taken(p))
    ensures var (stick', answer) := StickReact(stick, p, w.requests[0]);
            var w' := Wire(w.requests[1..], if answer.Some? then w.answers + [answer.value] else w.answers);
            if Releasing(w, stick == Taken(p)) then Idle(w', stick' == Taken(p)) && stick' == Available
            else Waiting(w', stick' == Taken(p))
  {
    assert w.requests[0] == Request.Put ==> StickReact(stick, p, w.requests[0]) == (Available, None);
    assert w.requests == [Request.Put] ==> w.requests[1..] == [];
    assert w.requests == [Request.Put, Take] ==> w.requests[1..] == [Take];
    assert w.requests == [Take] ==> w.requests[1..] == [];
  }

  lemma AnswerKeepsSeat(s: Seat, side: Side, ownsLeft: bool, ownsRight: bool)
    requires SeatOk(s, ownsLeft, ownsRight) && s.At(side).answers != []
    ensures var w := s.At(side);
            SeatOk(s.Put(side, w.(answers := w.answers[1..])).Receive(Answer(side, w.answers[0])), ownsLeft, ownsRight)
  {
    var w := s.At(side);
    assert Waiting(w, if side == Left then ownsLeft else ownsRight);
    assert w.answers[1..] == [];
  }

  lemma SelfKeepsSeat(s: Seat, index: nat, ownsLeft: bool, ownsRight: bool)
    requires SeatOk(s, ownsLeft, ownsRight) && index < |s.timers|
    ensures SeatOk(s.(timers := s.timers[..index] + s.timers[index + 1..]).Receive(Self(s.timers[index])), ownsLeft, ownsRight)
  {
    assert s.timers[..index] + s.timers[index + 1..] == [];
    if s.phase == Thinking {
      assert s.left.requests + [Take] == [Take] || s.left.requests + [Take] == [Request.Put, Take];
      assert s.right.requests + [Take] == [Take] || s.right.requests + [Take] == [Request.Put, Take];
    }
  }

  lemma RequestKeepsSeat(t: Table, p: nat, side: Side)
    requires Inv(t) && Enabled(t, StickReceives(p, side))
    ensures var u := Step(t, StickReceives(p, side));
            |u.seats| == |u.sticks| == |t.seats| && SeatOk(u.seats[p], Owns(u, p, Left), Owns(u, p, Right))
  {
    assert SeatOk(t.seats[p], Owns(t, p, Left), Owns(t, p, Right));
    StickReceivesWire(t.sticks[StickOf(|t.seats|, p, side)], p, t.seats[p].At(side));
  }

  lemma StepSeat(t: Table, e: Event)
    requires Inv(t) && Enabled(t, e)
    ensures |Step(t, e).seats| == |Step(t, e).sticks| == |t.seats|
    ensures SeatOk(Step(t, e).seats[e.seat], Owns(Step(t, e), e.seat, Left), Owns(Step(t, e), e.seat, Right))
  {
    var p, n := e.seat, |t.seats|;
    var s := t.seats[p];
    assert SeatOk(s, Owns(t, p, Left), Owns(t, p, Right));
    match e
    case StickReceives(_, side) =>
      RequestKeepsSeat(t, p, side);
    case SeatReceivesAnswer(_, side) =>
      AnswerKeepsSeat(s, side, Owns(t, p, Left), Owns(t, p, Right));
    case SeatReceivesSelf(_, index) =>
      SelfKeepsSeat(s, index, Owns(t, p, Left), Owns(t, p, Right));
    case SeatReceivesBacklog(_) =>
  }

  lemma StepInv(t: Table, e: Event)
    requires Inv(t) && Enabled(t, e)
    ensures Inv(Step(t, e))
  {
    var u := Step(t, e);
    StepSeat(t, e);
    forall q | 0 <= q < |t.seats|
      ensures SeatOk(u.seats[q], Owns(u, q, Left), Owns(u, q, Right))
    {
      if q != e.seat {
        StepFrame(t, e, q);
      }
    }
  }

  lemma {:induction false} RunInv(t: Table, run: seq<Event>, u: Table)
    requires Inv(t) && Reaches(t, run, u)
    ensures Inv(u) && |u.seats| == |t.seats|
    decreases |run|
  {
    if run != [] {
      StepInv(t, run[0]);
      StepSeat(t, run[0]);
      RunInv(Step(t, run[0]), run[1..], u);
    }
  }

  // -- A chopstick over any sequence of requests ----------------------------------

  function StickAfter(requests: seq<(nat, Request)>): (stick: Stick) {
    if requests == [] then Available
    else
      var (sender, request) := requests[|requests| - 1];
      StickReact(StickAfter(requests[..|requests| - 1]), sender, request).0
  }

  /** Take number i found the chopstick available, and its sender has not put it back since. */
  predicate Holds(requests: seq<(nat, Request)>, i: nat, p: nat)
    requires i < |requests|
  {
    && requests[i] == (p, Take) && StickAfter(requests[..i]) == Available
    && forall j :: i < j < |requests| ==> requests[j] != (p, Request.Put)
  }

  /** A chopstick belongs to whoever took it last while it was available and has not put it back. */
  lemma {:induction false} StickBelongsTo(requests: seq<(nat, Request)>, p: nat)
    ensures StickAfter(requests) == Taken(p) <==> exists i :: 0 <= i < |requests| && Holds(requests, i, p)
  {
    if requests != [] {
      var n := |requests| - 1;
      var front := requests[..n];
      StickBelongsTo(front, p);
      assert forall i :: 0 <= i <= n ==> front[..i] == requests[..i];
      if i :| 0 <= i < |front| && Holds(front, i, p) {
        assert requests[n] != (p, Request.Put) ==> Holds(requests, i, p);
      }
      if i :| 0 <= i < |requests| && Holds(requests, i, p) {
        assert i < n ==> Holds(front, i, p);
      }
      assert StickAfter(front) == Available && requests[n] == (p, Take) ==> Holds(requests, n, p);
    }
  }

  // -- Safety of every run -----------------------------------------------------

  /**
   In the ring of seats, whoever eats owns the chopstick of its own number and the next one, and two
   seats next to each other never eat together.
   */
  lemma NeighboursNeverEatTogether(n: nat, run: seq<Event>, t: Table)
    requires n >= 2 && Reaches(Initial(n), run, t)
    ensures |t.seats| == |t.sticks| == n
    ensures forall p :: 0 <= p < n && t.seats[p].phase == Eating ==>
              t.sticks[p] == Taken(p) == t.sticks[if p + 1 == n then 0 else p + 1]
    ensures forall p :: 0 <= p < n ==>
              !(t.seats[p].phase == Eating && t.seats[if p + 1 == n then 0 else p + 1].phase == Eating)
    ensures forall p :: 0 <= p < n && t.seats[p].phase == Eating ==>
              t.sticks[StickOf(n, p, Left)] == Taken(p) == t.sticks[StickOf(n, p, Right)]
    ensures forall p, q, c :: 0 <= p < n && 0 <= q < n && p != q && Neighbour(n, p, c) && Neighbour(n, q, c) ==>
              !(t.seats[p].phase == Eating && t.seats[q].phase == Eating)
  {
    InitialInv(n);
    RunInv(Initial(n), run, t);
    forall p | 0 <= p < n && t.seats[p].phase == Eating
      ensures t.sticks[StickOf(n, p, Left)] == Taken(p) == t.sticks[StickOf(n, p, Right)]
    {
      assert SeatOk(t.seats[p], Owns(t, p, Left), Owns(t, p, Right));
    }
  }

  /** A put that is still travelling belongs to the current user of the chopstick, and handling it releases. */
  lemma EveryPutReleases(n: nat, run: seq<Event>, t: Table, p: nat, side: Side)
    requires n >= 2 && Reaches(Initial(n), run, t) && p < |t.seats|
    ensures |t.seats| == |t.sticks| == n
    ensures Request.Put in t.seats[p].At(side).requests ==>
              && t.sticks[StickOf(n, p, side)] == Taken(p)
              && t.seats[p].At(side).requests[0] == Request.Put
              && Step(t, StickReceives(p, side)).sticks[StickOf(n, p, side)] == Available
  {
    InitialInv(n);
    RunInv(Initial(n), run, t);
    if Request.Put in t.seats[p].At(side).requests {
      PutIsFirst(t.seats[p], Owns(t, p, Left), Owns(t, p, Right), side);
      PutReleases(t, p, side);
    }
  }

  lemma PutIsFirst(s: Seat, ownsLeft: bool, ownsRight: bool, side: Side)
    requires SeatOk(s, ownsLeft, ownsRight) && Request.Put in s.At(side).requests
    ensures s.At(side).requests[0] == Request.Put && if side == Left then ownsLeft else ownsRight
  {
  }

  lemma PutReleases(t: Table, p: nat, side: Side)
    requires p < |t.seats| == |t.sticks| && Owns(t, p, side)
    requires t.seats[p].At(side).requests != [] && t.seats[p].At(side).requests[0] == Request.Put
    ensures Enabled(t, StickReceives(p, side))
    ensures Step(t, StickReceives(p, side)).sticks[StickOf(|t.seats|, p, side)] == Available
  {
  }

  /** A taken chopstick is never forgotten: its user holds it, or the news or the release is on its way. */
  lemma NoForgottenChopstick(n: nat, run: seq<Event>, t: Table, c: nat)
    requires n >= 2 && Reaches(Initial(n), run, t) && c < |t.sticks| && t.sticks[c].Taken?
    ensures |t.seats| == n && t.sticks[c].user < n
    ensures var p := t.sticks[c].user;
            exists side ::
              && StickOf(n, p, side) == c
              && (|| t.seats[p].phase == Eating
                  || (t.seats[p].phase == Granted && t.seats[p].At(side) == Wire([], []))
                  || t.seats[p].At(side).answers == [true]
                  || Request.Put in t.seats[p].At(side).requests)
  {
    InitialInv(n);
    RunInv(Initial(n), run, t);
    var p := t.sticks[c].user;
    assert Neighbour(n, p, c);
    var side := if StickOf(n, p, Left) == c then Left else Right;
    assert Owns(t, p, side);
    assert SeatOk(t.seats[p], Owns(t, p, Left), Owns(t, p, Right));
    assert StickOf(n, p, side) == c;
  }

  /** Takes that have no handled answer yet. */
  function Outstanding(w: Wire): (k: nat) {
    |w.answers| + (if Take in w.requests then 1 else 0)
  }

  /** An event that brings a seat closer to rest, or starts a new meal when it is at rest. */
  function NextEvent(s: Seat, p: nat): (e: Event)
    ensures e.seat == p
  {
    if s.left.requests != [] then StickReceives(p, Left)
    else if s.right.requests != [] then StickReceives(p, Right)
    else if s.left.answers != [] then SeatReceivesAnswer(p, Left)
    else if s.right.answers != [] then SeatReceivesAnswer(p, Right)
    else SeatReceivesSelf(p, 0)
  }

  lemma NextEventEnabled(t: Table, p: nat)
    requires Inv(t) && p < |t.seats|
    ensures Enabled(t, NextEvent(t.seats[p], p))
  {
    assert SeatOk(t.seats[p], Owns(t, p, Left), Owns(t, p, Right));
  }

  lemma PendingMail(s: Seat, ownsLeft: bool, ownsRight: bool)
    requires SeatOk(s, ownsLeft, ownsRight)
    ensures Outstanding(s.left) + Outstanding(s.right) ==
              (match s.phase case Hungry => 2 case Granted => 1 case Denied => 1 case _ => 0)
  {
    assert Waiting(s.left, ownsLeft) ==> Outstanding(s.left) == 1;
    assert Waiting(s.right, ownsRight) ==> Outstanding(s.right) == 1;
  }

  /**
   Every philosopher waits for exactly the messages its behavior handles. Its stash stays empty, and
   in every reachable state some message of that philosopher can be handled: no deadlock.
   */
  lemma PendingMailFitsBehavior(n: nat, run: seq<Event>, t: Table, p: nat)
    requires n >= 2 && Reaches(Initial(n), run, t) && p < n
    ensures |t.seats| == n
    ensures var s := t.seats[p];
            && s.cache == [] == s.backlog
            && s.timers == (match s.phase case Thinking => [Eat] case Eating => [Think] case _ => [])
            && Outstanding(s.left) + Outstanding(s.right) ==
                 (match s.phase case Hungry => 2 case Granted => 1 case Denied => 1 case _ => 0)
    ensures exists e :: Enabled(t, e) && e.seat == p
  {
    InitialInv(n);
    RunInv(Initial(n), run, t);
    PendingMail(t.seats[p], Owns(t, p, Left), Owns(t, p, Right));
    NextEventEnabled(t, p);
  }

  // -- No livelock trap: everybody can always still eat -------------------------

  predicate AtRest(t: Table, p: nat)
    requires |t.seats| == |t.sticks| && p < |t.seats|
  {
    && t.seats[p].phase == Thinking
    && Idle(t.seats[p].left, Owns(t, p, Left)) && Idle(t.seats[p].right, Owns(t, p, Right))
  }

  function RequestEffort(requests: seq<Request>): (k: nat) {
    if requests == [] then 0 else (if requests[0] == Take then 2 else 1) + RequestEffort(requests[1..])
  }

  function WireEffort(w: Wire): (k: nat) {
    RequestEffort(w.requests) + |w.answers|
  }

  /** An upper bound on the messages a seat still handles before it is at rest. */
  function Effort(s: Seat): (k: nat) {
    WireEffort(s.left) + WireEffort(s.right) +
    (match s.phase case Thinking => 0 case Denied => 2 case _ => 3)
  }

  lemma WireEffortDrops(stick: Stick, p: nat, w: Wire)
    requires w.requests != []
    requires Releasing(w, stick == Taken(p)) || Waiting(w, stick == Taken(p))
    ensures var (stick', answer) := StickReact(stick, p, w.requests[0]);
            WireEffort(Wire(w.requests[1..], if answer.Some? then w.answers + [answer.value] else w.answers)) < WireEffort(w)
  {
    if w.requests == [Request.Put, Take] {
      assert w.requests[1..] == [Take];
      assert RequestEffort([Take]) == 2;
    }
  }

  lemma AnswerEffortDrops(s: Seat, side: Side, ownsLeft: bool, ownsRight: bool)
    requires SeatOk(s, ownsLeft, ownsRight) && s.left.requests == [] == s.right.requests
    requires s.At(side).answers != []
    ensures var w := s.At(side);
            Effort(s.Put(side, w.(answers := w.answers[1..])).Receive(Answer(side, w.answers[0]))) < Effort(s)
  {
    assert RequestEffort([Request.Put]) == 1;
    var none: seq<Request> := [];
    assert none + [Request.Put] == [Request.Put];
    assert none + none == none;
  }

  lemma NextEventHelps(t: Table, p: nat)
    requires Inv(t) && p < |t.seats| && !AtRest(t, p)
    ensures Enabled(t, NextEvent(t.seats[p], p))
    ensures Effort(Step(t, NextEvent(t.seats[p], p)).seats[p]) < Effort(t.seats[p])
  {
    NextEventEnabled(t, p);
    var s, n := t.seats[p], |t.seats|;
    assert SeatOk(s, Owns(t, p, Left), Owns(t, p, Right));
    match NextEvent(s, p)
    case StickReceives(_, side) => WireEffortDrops(t.sticks[StickOf(n, p, side)], p, s.At(side));
    case SeatReceivesAnswer(_, side) => AnswerEffortDrops(s, side, Owns(t, p, Left), Owns(t, p, Right));
    case SeatReceivesSelf(_, _) =>
      assert s.phase == Eating;
      assert s.timers[..0] + s.timers[1..] == [];
      assert RequestEffort([Request.Put]) == 1;
      assert s.left.requests + [Request.Put] == [Request.Put] == s.right.requests + [Request.Put];
  }

  lemma {:induction false} ReachesTrans(t: Table, run: seq<Event>, u: Table, run': seq<Event>, v: Table)
    requires Reaches(t, run, u) && Reaches(u, run', v)
    ensures Reaches(t, run + run', v)
    decreases |run|
  {
    if run == [] {
      assert run + run' == run';
    } else {
      ReachesTrans(Step(t, run[0]), run[1..], u, run', v);
      assert (run + run')[1..] == run[1..] + run';
    }
  }

  /** A philosopher can be brought to rest by its own messages alone. */
  lemma {:induction false} CalmSeat(t: Table, p: nat) returns (run: seq<Event>, u: Table)
    requires Inv(t) && p < |t.seats|
    ensures Reaches(t, run, u) && Inv(u) && |u.seats| == |t.seats| && AtRest(u, p)
    ensures forall q :: 0 <= q < |t.seats| && q != p && AtRest(t, q) ==> AtRest(u, q)
    decreases Effort(t.seats[p])
  {
    if AtRest(t, p) {
      run, u := [], t;
    } else {
      var e := NextEvent(t.seats[p], p);
      NextEventHelps(t, p);
      StepInv(t, e);
      StepSeat(t, e);
      forall q | 0 <= q < |t.seats| && q != p && AtRest(t, q)
        ensures AtRest(Step(t, e), q)
      {
        StepFrame(t, e, q);
        assert Owns(Step(t, e), q, Left) == Owns(t, q, Left);
        assert Owns(Step(t, e), q, Right) == Owns(t, q, Right);
      }
      var rest;
      rest, u := CalmSeat(Step(t, e), p);
      run := [e] + rest;
      assert run[1..] == rest;
    }
  }

  lemma {:induction false} CalmTable(t: Table, k: nat) returns (run: seq<Event>, u: Table)
    requires Inv(t) && k <= |t.seats|
    ensures Reaches(t, run, u) && Inv(u) && |u.seats| == |t.seats|
    ensures forall q :: 0 <= q < k ==> AtRest(u, q)
  {
    if k == 0 {
      run, u := [], t;
    } else {
      var first, mid := CalmTable(t, k - 1);
      var second;
      second, u := CalmSeat(mid, k - 1);
      run := first + second;
      ReachesTrans(t, first, mid, second, u);
    }
  }

  lemma UserIsBusy(t: Table, c: nat)
    requires Inv(t) && c < |t.sticks| && t.sticks[c].Taken?
    ensures t.sticks[c].user < |t.seats| && !AtRest(t, t.sticks[c].user)
  {
    var p := t.sticks[c].user;
    assert Neighbour(|t.seats|, p, c);
    assert Owns(t, p, Left) || Owns(t, p, Right);
  }

  lemma RestFrees(t: Table, c: nat)
    requires Inv(t) && c < |t.sticks|
    requires forall q :: 0 <= q < |t.seats| ==> AtRest(t, q)
    ensures t.sticks[c] == Available
  {
    if t.sticks[c].Taken? {
      UserIsBusy(t, c);
      assert false;
    }
  }

  /** Philosopher p and its two chopsticks look as given. */
  ghost predicate Place(t: Table, p: nat, seat: Seat, left: Stick, right: Stick) {
    && p < |t.seats| == |t.sticks| && |t.seats| >= 2 && t.seats[p] == seat
    && t.sticks[StickOf(|t.seats|, p, Left)] == left && t.sticks[StickOf(|t.seats|, p, Right)] == right
  }

  function HungrySeat(left: Wire, right: Wire): (s: Seat) {
    Seat(Hungry, left, right, [], [], [])
  }

  lemma EatArrives(t: Table, p: nat)
    requires Place(t, p, NEW_SEAT, Available, Available)
    ensures Enabled(t, SeatReceivesSelf(p, 0))
    ensures Place(Step(t, SeatReceivesSelf(p, 0)), p, HungrySeat(Wire([Take], []), Wire([Take], [])), Available, Available)
  {
    assert NEW_SEAT.timers[..0] + NEW_SEAT.timers[1..] == [];
  }

  lemma LeftTakeArrives(t: Table, p: nat)
    requires Place(t, p, HungrySeat(Wire([Take], []), Wire([Take], [])), Available, Available)
    ensures Enabled(t, StickReceives(p, Left))
    ensures Place(Step(t, StickReceives(p, Left)), p, HungrySeat(Wire([], [true]), Wire([Take], [])), Taken(p), Available)
  {
  }

  lemma RightTakeArrives(t: Table, p: nat)
    requires Place(t, p, HungrySeat(Wire([], [true]), Wire([Take], [])), Taken(p), Available)
    ensures Enabled(t, StickReceives(p, Right))
    ensures Place(Step(t, StickReceives(p, Right)), p, HungrySeat(Wire([], [true]), Wire([], [true])), Taken(p), Taken(p))
  {
  }

  lemma AnswersArrive(t: Table, p: nat)
    requires Place(t, p, HungrySeat(Wire([], [true]), Wire([], [true])), Taken(p), Taken(p))
    ensures Enabled(t, SeatReceivesAnswer(p, Left))
    ensures var u := Step(t, SeatReceivesAnswer(p, Left));
            && |u.seats| == |t.seats| && Enabled(u, SeatReceivesAnswer(p, Right))
            && var v := Step(u, SeatReceivesAnswer(p, Right));
               |v.seats| == |t.seats| && v.seats[p].phase == Eating
  {
  }

  lemma ReachesNext(t: Table, run: seq<Event>, u: Table, e: Event)
    requires Reaches(t, run, u) && Enabled(u, e)
    ensures Reaches(t, run + [e], Step(u, e))
  {
    var v := Step(u, e);
    assert Reaches(v, [], v);
    assert [e][1..] == [];
    assert Reaches(u, [e], v);
    ReachesTrans(t, run, u, [e], v);
  }

  /** At a table at rest every chopstick is free, so five messages suffice for p to eat. */
  lemma EatFromRest(t: Table, p: nat) returns (run: seq<Event>, u: Table)
    requires Inv(t) && p < |t.seats|
    requires forall q :: 0 <= q < |t.seats| ==> AtRest(t, q)
    ensures Reaches(t, run, u) && |u.seats| == |t.seats| && u.seats[p].phase == Eating
  {
    RestIsPlace(t, p);
    run, u := [], t;
    EatArrives(u, p);
    ReachesNext(t, run, u, SeatReceivesSelf(p, 0));
    run, u := run + [SeatReceivesSelf(p, 0)], Step(u, SeatReceivesSelf(p, 0));
    LeftTakeArrives(u, p);
    ReachesNext(t, run, u, StickReceives(p, Left));
    run, u := run + [StickReceives(p, Left)], Step(u, StickReceives(p, Left));
    RightTakeArrives(u, p);
    ReachesNext(t, run, u, StickReceives(p, Right));
    run, u := run + [StickReceives(p, Right)], Step(u, StickReceives(p, Right));
    AnswersArrive(u, p);
    ReachesNext(t, run, u, SeatReceivesAnswer(p, Left));
    run, u := run + [SeatReceivesAnswer(p, Left)], Step(u, SeatReceivesAnswer(p, Left));
    ReachesNext(t, run, u, SeatReceivesAnswer(p, Right));
    run, u := run + [SeatReceivesAnswer(p, Right)], Step(u, SeatReceivesAnswer(p, Right));
  }

  lemma RestIsPlace(t: Table, p: nat)
    requires Inv(t) && p < |t.seats|
    requires forall q :: 0 <= q < |t.seats| ==> AtRest(t, q)
    ensures Place(t, p, NEW_SEAT, Available, Available)
  {
    RestFrees(t, StickOf(|t.seats|, p, Left));
    RestFrees(t, StickOf(|t.seats|, p, Right));
    assert AtRest(t, p);
    assert SeatOk(t.seats[p], false, false);
  }

  /** From every reachable state, every philosopher can still get to eat. */
  lemma EverybodyCanStillEat(n: nat, run: seq<Event>, t: Table, p: nat)
    requires n >= 2 && Reaches(Initial(n), run, t) && p < n
    ensures exists more, u :: Reaches(t, more, u) && |u.seats| == n && u.seats[p].phase == Eating
  {
    InitialInv(n);
    RunInv(Initial(n), run, t);
    var calm, mid := CalmTable(t, n);
    var meal, u := EatFromRest(mid, p);
    ReachesTrans(t, calm, mid, meal, u);
  }
}
