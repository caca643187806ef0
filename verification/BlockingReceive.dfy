/**
 Selective receive of a blocking actor.

 `receive_impl` pops messages from the FIFO mailbox, pushes those that do not match on the LIFO
 stash, and returns the stash to the front of the mailbox after each consumed message. The
 specification knows only one arrival-ordered queue, Reversed(stash) + mailbox.
 */
module BlockingReceive {
  import opened Basics

  datatype MessageId = Plain(n: nat) | Response(n: nat)
  datatype Message = Message(mid: MessageId, payload: int)

  /** What one call of `receive_impl` waits for; `handles` is the pure part of the behavior. */
  datatype Pattern = Pattern(mid: MessageId, handles: Message -> bool)
  {
    /** A matching response is always consumed, if need be by re-invoking the handler with an error. */
    predicate Accepts(m: Message) {
      if mid.Response? then m.mid == mid else !m.mid.Response? && handles(m)
    }
  }

  // -- Sequences ---------------------------------------------------------------

  function Reversed<T>(s: seq<T>): (r: seq<T>)
    ensures |r| == |s|
  {
    if s == [] then [] else Reversed(s[1..]) + [s[0]]
  }

  function Select(p: Pattern, accepted: bool, s: seq<Message>): (r: seq<Message>)
  {
    if s == [] then []
    else Select(p, accepted, s[..|s| - 1]) + (if p.Accepts(s[|s| - 1]) == accepted then [s[|s| - 1]] else [])
  }

  function Flatten<T>(s: seq<seq<T>>): (r: seq<T>) {
    if s == [] then [] else Flatten(s[..|s| - 1]) + s[|s| - 1]
  }

  /** s occurs in t in the same order. */
  ghost predicate Subsequence<T>(s: seq<T>, t: seq<T>) {
    if s == [] then true
    else t != [] && ((s[0] == t[0] && Subsequence(s[1..], t[1..])) || Subsequence(s, t[1..]))
  }

  // -- The simple form: one queue ----------------------------------------------

  datatype Entry = Arrived(m: Message) | Consumed(m: Message) | TimedOut

  /** Position of the oldest acceptable message, |q| if there is none. */
  function FirstAccepted(p: Pattern, q: seq<Message>): (i: nat)
    ensures i <= |q|
    ensures forall k :: 0 <= k < i ==> !p.Accepts(q[k])
    ensures i < |q| ==> p.Accepts(q[i])
  {
    if q == [] then 0 else if p.Accepts(q[0]) then 0 else 1 + FirstAccepted(p, q[1..])
  }

  /**
   One visible step on the single queue: arrivals go to the back, a consumed message is the oldest
   acceptable one, and the timeout handler runs only when nothing acceptable is queued.
   */
  function QueueStep(p: Pattern, q: seq<Message>, e: Entry): (r: Option<seq<Message>>) {
    match e
    case Arrived(m) => Some(q + [m])
    case Consumed(m) =>
      var i := FirstAccepted(p, q);
      if i < |q| && q[i] == m then Some(q[..i] + q[i + 1..]) else None
    case TimedOut => if FirstAccepted(p, q) == |q| then Some(q) else None
  }

  /** Replays a log on the single queue; None if the queue does not explain the log. */
  function Replay(p: Pattern, q: seq<Message>, log: seq<Entry>): (r: Option<seq<Message>>)
  {
    if log == [] then Some(q)
    else match Replay(p, q, log[..|log| - 1])
      case None => None
      case Some(q') => QueueStep(p, q', log[|log| - 1])
  }

  function Arrivals(log: seq<Entry>): (r: seq<Message>) {
    if log == [] then []
    else Arrivals(log[..|log| - 1]) + (if log[|log| - 1].Arrived? then [log[|log| - 1].m] else [])
  }

  function Consumptions(log: seq<Entry>): (r: seq<Message>) {
    if log == [] then []
    else Consumptions(log[..|log| - 1]) + (if log[|log| - 1].Consumed? then [log[|log| - 1].m] else [])
  }

  /** How often the loop condition of the receive was evaluated. */
  function Rounds(log: seq<Entry>): (n: nat) {
    if log == [] then 0 else Rounds(log[..|log| - 1]) + (if log[|log| - 1].Arrived? then 0 else 1)
  }

  function ArrivedAll(ms: seq<Message>): (r: seq<Entry>)
    ensures |r| == |ms|
    ensures forall i :: 0 <= i < |ms| ==> r[i] == Arrived(ms[i])
  {
    seq(|ms|, i requires 0 <= i < |ms| => Arrived(ms[i]))
  }

  lemma {:induction false} ReplayConcat(p: Pattern, q: seq<Message>, log: seq<Entry>, more: seq<Entry>)
    requires Replay(p, q, log).Some?
    ensures Arrivals(log + more) == Arrivals(log) + Arrivals(more)
    ensures Rounds(log + more) == Rounds(log) + Rounds(more)
    ensures Replay(p, q, log + more) == Replay(p, Replay(p, q, log).value, more)
    decreases |more|
  {
    if more == [] {
      assert log + more == log;
    } else {
      var front := more[..|more| - 1];
      ReplayConcat(p, q, log, front);
      assert (log + more)[..|log + more| - 1] == log + front;
    }
  }

  lemma {:induction false} ReplayArrivals(p: Pattern, q: seq<Message>, ms: seq<Message>)
    ensures Arrivals(ArrivedAll(ms)) == ms && Rounds(ArrivedAll(ms)) == 0
    ensures Replay(p, q, ArrivedAll(ms)) == Some(q + ms)
    decreases |ms|
  {
    if ms == [] {
      assert q + ms == q;
    } else {
      var front, m := ms[..|ms| - 1], ms[|ms| - 1];
      ReplayArrivals(p, q, front);
      assert ArrivedAll(ms)[..|ms| - 1] == ArrivedAll(front);
      assert q + front + [m] == q + ms;
    }
  }

  lemma Snoc(p: Pattern, q: seq<Message>, ms: seq<Message>, e: Entry)
    requires !e.Arrived?
    ensures Arrivals(ArrivedAll(ms) + [e]) == ms && Rounds(ArrivedAll(ms) + [e]) == 1
    ensures Replay(p, q, ArrivedAll(ms) + [e]) == QueueStep(p, q + ms, e)
  {
    ReplayArrivals(p, q, ms);
    assert (ArrivedAll(ms) + [e])[..|ms|] == ArrivedAll(ms);
  }

  // -- One loop iteration on the single queue -----------------------------------

  /** The queue and how many of its oldest messages the running receive has skipped. */
  datatype Scan = Scan(queue: seq<Message>, skipped: nat)

  /** What one loop iteration does when the given messages arrive before its wait ends. */
  function ScanStep(p: Pattern, infinite: bool, s: Scan, arrived: seq<Message>): (r: (Scan, seq<Entry>)) {
    var q, k := s.queue + arrived, s.skipped;
    if k < |q| then
      if p.Accepts(q[k]) then (Scan(q[..k] + q[k + 1..], 0), ArrivedAll(arrived) + [Consumed(q[k])])
      else (Scan(q, k + 1), ArrivedAll(arrived))
    else (Scan(q, k), ArrivedAll(arrived) + if infinite then [] else [TimedOut])
  }

  /** A whole receive: iterations until the receive condition is met or the world ends. */
  function ScanAll(p: Pattern, infinite: bool, rounds: nat, s: Scan, log: seq<Entry>, world: seq<seq<Message>>)
    : (r: (Scan, seq<Entry>, seq<seq<Message>>))
    decreases |world|
  {
    if world == [] || Rounds(log) >= rounds then (s, log, world)
    else
      var (s', more) := ScanStep(p, infinite, s, world[0]);
      ScanAll(p, infinite, rounds, s', log + more, world[1..])
  }

  // -- The fast form: mailbox and stash ----------------------------------------

  class BlockingActor {
    var mailbox: seq<Message>
    var stash: seq<Message>  // intrusive stack, top first

    /** The arrival-ordered queue that mailbox and stash stand for. */
    function Queue(): seq<Message>
      reads this
    {
      Reversed(stash) + mailbox
    }

    constructor ()
      ensures Queue() == []
    {
      mailbox, stash := [], [];
    }

    method Unstash()
      modifies this
      ensures stash == [] && mailbox == old(Queue()) == Queue()
    {
      while stash != []
        invariant Queue() == old(Queue())
        decreases |stash|
      {
        assert Reversed(stash) == Reversed(stash[1..]) + [stash[0]];
        mailbox := [stash[0]] + mailbox;
        stash := stash[1..];
      }
    }

    method Stash(m: Message)
      modifies this
      ensures stash == [m] + old(stash) && mailbox == old(mailbox)
      ensures Reversed(stash) == Reversed(old(stash)) + [m]
    {
      stash := [m] + stash;
    }

    /** The queue and the scan position; skipped messages are on the stash. */
    function View(): Scan
      reads this
    {
      Scan(Queue(), |stash|)
    }

    /** Fetches the next message and dispatches it: consumed, after which the stash goes back, or skipped. */
    method Dispatch(p: Pattern) returns (consumed: bool, m: Message)
      requires mailbox != []
      modifies this
      ensures m == old(mailbox[0]) && (consumed <==> p.Accepts(m))
      ensures p.mid.Response? ==> (consumed <==> m.mid == p.mid)
      ensures p.mid.Plain? ==> (consumed <==> m.mid.Plain? && p.handles(m))
      ensures View() == if consumed then Scan(RemoveAt(old(Queue()), |old(stash)|), 0)
                        else Scan(old(Queue()), |old(stash)| + 1)
    {
      PopFirst(Reversed(stash), mailbox);
      m := mailbox[0];
      mailbox := mailbox[1..];
      consumed := false;
      // skip messages that do not match the message ID
      if p.mid.Response? {
        if p.mid != m.mid {
          Stash(m);
          return;
        }
      } else if m.mid.Response? {
        Stash(m);
        return;
      }
      if p.mid.Response? || p.handles(m) {
        consumed := true;
        Unstash();
        return;
      }
      Stash(m);
    }

    /** One loop iteration of receive_impl; `arrived` is what producers enqueue until its wait ends. */
    method Iterate(p: Pattern, infinite: bool, arrived: seq<Message>) returns (log: seq<Entry>)
      modifies this
      ensures (View(), log) == ScanStep(p, infinite, old(View()), arrived)
      ensures old(mailbox) == [] == arrived ==> log == if infinite then [] else [TimedOut]
    {
      Assoc(Reversed(stash), mailbox, arrived);
      mailbox := mailbox + arrived;
      log := ArrivedAll(arrived);
      if mailbox != [] {
        PopFirst(Reversed(stash), mailbox);
        var consumed, m := Dispatch(p);
        if consumed {
          log := log + [Consumed(m)];
        }
      } else {
        log := log + if infinite then [] else [TimedOut];
      }
    }

    /**
     `world[k]` is what producers enqueue until the wait of the k-th loop iteration ends; a wait that
     ends with an empty mailbox is a timeout, or still blocked if the timeout is infinite. `rounds`
     is how many consumed messages or timeouts the receive condition asks for. `done` is false if the
     actor still waits when the world ends.
     */
    method ReceiveImpl(p: Pattern, infinite: bool, rounds: nat, world: seq<seq<Message>>)
      returns (log: seq<Entry>, used: nat, done: bool)
      modifies this
      ensures used <= |world|
      ensures ScanAll(p, infinite, rounds, Scan(old(Queue()), 0), [], world) == (View(), log, world[used..])
      ensures Replay(p, old(Queue()), log) == Some(Queue())
      ensures Arrivals(log) == Flatten(world[..used])
      ensures if done then Rounds(log) == rounds else Rounds(log) < rounds && used == |world|
      ensures infinite ==> TimedOut !in log
      ensures !infinite && rounds > 0 && |world| > |old(Queue())| + |Flatten(world)| ==> Rounds(log) > 0
      ensures forall m :: m in stash ==> !p.Accepts(m)
    {
      ghost var start := Queue();
      Unstash();
      log, used := ReceiveLoop(p, infinite, rounds, world);
      done := Rounds(log) == rounds;
      assert world == world[..used] + world[used..];
      assert [] + Flatten(world[..used]) == Flatten(world[..used]);
      ScanAllReplays(p, infinite, rounds, Scan(start, 0), [], world, start, []);
      NoRoundYet(p, infinite, rounds, Scan(start, 0), [], world);
      NotAccepted(p, View(), mailbox, Reversed(stash));
      forall m | m in stash ensures !p.Accepts(m) {
        ReversedMembers(stash, m);
      }
    }

    /** The loop of receive_impl. */
    method ReceiveLoop(p: Pattern, infinite: bool, rounds: nat, world: seq<seq<Message>>)
      returns (log: seq<Entry>, used: nat)
      modifies this
      ensures used <= |world|
      ensures ScanAll(p, infinite, rounds, old(View()), [], world) == (View(), log, world[used..])
    {
      log, used := [], 0;
      assert world[0..] == world;
      while used < |world| && Rounds(log) < rounds
        invariant used <= |world|
        invariant ScanAll(p, infinite, rounds, old(View()), [], world) ==
                  ScanAll(p, infinite, rounds, View(), log, world[used..])
      {
        assert world[used..][1..] == world[used + 1..];
        var more := Iterate(p, infinite, world[used]);
        log, used := log + more, used + 1;
      }
    }
  }

  // -- Iterations explain themselves on the single queue ------------------------------

  ghost predicate Skipped(p: Pattern, s: Scan) {
    s.skipped <= |s.queue| && forall k :: 0 <= k < s.skipped ==> !p.Accepts(s.queue[k])
  }

  lemma NotAccepted(p: Pattern, s: Scan, mailbox: seq<Message>, skipped: seq<Message>)
    requires Skipped(p, s) && s == Scan(skipped + mailbox, |skipped|)
    ensures forall m :: m in skipped ==> !p.Accepts(m)
  {
    forall m | m in skipped ensures !p.Accepts(m) {
      var k :| 0 <= k < |skipped| && skipped[k] == m;
      assert s.queue[k] == m;
    }
  }

  lemma FlattenNext(seen: seq<Message>, world: seq<seq<Message>>, n: nat)
    requires 0 < n <= |world|
    ensures seen + world[0] + Flatten(world[1..][..n - 1]) == seen + Flatten(world[..n])
  {
    FlattenCons(world[..n]);
    assert world[..n][1..] == world[1..][..n - 1];
    Assoc(seen, world[0], Flatten(world[1..][..n - 1]));
  }

  /** An iteration is arrivals, and then the oldest acceptable message is consumed, or a timeout, or nothing. */
  lemma ScanStepReplays(p: Pattern, infinite: bool, s: Scan, arrived: seq<Message>)
    requires Skipped(p, s)
    ensures var (s', log) := ScanStep(p, infinite, s, arrived);
            && Skipped(p, s') && Replay(p, s.queue, log) == Some(s'.queue)
            && Arrivals(log) == arrived && Rounds(log) <= 1 && (infinite ==> TimedOut !in log)
  {
    var q, k := s.queue + arrived, s.skipped;
    ReplayArrivals(p, s.queue, arrived);
    if k < |q| {
      if p.Accepts(q[k]) {
        FirstAcceptedIs(p, q, k);
        Snoc(p, s.queue, arrived, Consumed(q[k]));
      }
    } else if infinite {
      assert ArrivedAll(arrived) + [] == ArrivedAll(arrived);
    } else {
      Snoc(p, s.queue, arrived, TimedOut);
    }
  }

  /** The log so far is explained by the single queue, and `seen` is what arrived. */
  ghost predicate Explained(p: Pattern, infinite: bool, rounds: nat, start: seq<Message>, s: Scan, log: seq<Entry>, seen: seq<Message>) {
    && Skipped(p, s) && Replay(p, start, log) == Some(s.queue) && Arrivals(log) == seen
    && Rounds(log) <= rounds && (infinite ==> TimedOut !in log)
  }

  lemma ExplainedStep(
    p: Pattern, infinite: bool, rounds: nat, start: seq<Message>, s: Scan, log: seq<Entry>, seen: seq<Message>, arrived: seq<Message>)
    requires Explained(p, infinite, rounds, start, s, log, seen) && Rounds(log) < rounds
    ensures var (s', more) := ScanStep(p, infinite, s, arrived);
            Explained(p, infinite, rounds, start, s', log + more, seen + arrived)
  {
    var (s', more) := ScanStep(p, infinite, s, arrived);
    ScanStepReplays(p, infinite, s, arrived);
    ReplayConcat(p, start, log, more);
  }

  /** The log of a whole receive is explained by the single queue. */
  lemma {:induction false} ScanAllReplays(
    p: Pattern, infinite: bool, rounds: nat, s: Scan, log: seq<Entry>, world: seq<seq<Message>>, start: seq<Message>, seen: seq<Message>)
    requires Explained(p, infinite, rounds, start, s, log, seen)
    ensures var (s', log', rest) := ScanAll(p, infinite, rounds, s, log, world);
            && |rest| <= |world| && (Rounds(log') < rounds ==> rest == [])
            && Explained(p, infinite, rounds, start, s', log', seen + Flatten(world[..|world| - |rest|]))
    decreases |world|
  {
    if world == [] || Rounds(log) >= rounds {
      assert seen + Flatten(world[..0]) == seen;
    } else {
      var (s', more) := ScanStep(p, infinite, s, world[0]);
      ExplainedStep(p, infinite, rounds, start, s, log, seen, world[0]);
      ScanAllReplays(p, infinite, rounds, s', log + more, world[1..], start, seen + world[0]);
      var rest := ScanAll(p, infinite, rounds, s, log, world).2;
      FlattenNext(seen, world, |world| - |rest|);
    }
  }

  function RemoveAt(q: seq<Message>, i: nat): (r: seq<Message>)
    requires i < |q|
  {
    q[..i] + q[i + 1..]
  }

  lemma RemoveAppend(q: seq<Message>, i: nat, x: seq<Message>, y: seq<Message>)
    requires i < |q|
    ensures RemoveAt(q + x, i) + y == RemoveAt(q, i) + (x + y)
  {
    assert RemoveAt(q + x, i) == RemoveAt(q, i) + x;
  }

  // -- A receive makes progress ---------------------------------------------------

  lemma {:induction false} FirstAcceptedIs(p: Pattern, q: seq<Message>, i: nat)
    requires i < |q| && p.Accepts(q[i]) && forall k :: 0 <= k < i ==> !p.Accepts(q[k])
    ensures FirstAccepted(p, q) == i
  {
  }

  /** Iterating with the given arrivals, whatever they are. */
  function Iterations(p: Pattern, infinite: bool, s: Scan, log: seq<Entry>, world: seq<seq<Message>>): (r: (Scan, seq<Entry>))
    decreases |world|
  {
    if world == [] then (s, log)
    else
      var (s', more) := ScanStep(p, infinite, s, world[0]);
      Iterations(p, infinite, s', log + more, world[1..])
  }

  /**
   If the oldest acceptable message is number i and k messages are skipped already, iteration
   i - k + 1 consumes it and the earlier ones complete no round, whatever arrives meanwhile.
   */
  lemma {:induction false} ConsumedInTime(p: Pattern, infinite: bool, s: Scan, log: seq<Entry>, world: seq<seq<Message>>)
    requires var i := FirstAccepted(p, s.queue); s.skipped <= i < |s.queue| && |world| == i - s.skipped + 1
    ensures var i := FirstAccepted(p, s.queue);
            var r := Iterations(p, infinite, s, log, world);
            && r.0 == Scan(RemoveAt(s.queue, i) + Flatten(world), 0)
            && Rounds(r.1) == Rounds(log) + 1 && r.1[|r.1| - 1] == Consumed(s.queue[i])
    decreases |world|
  {
    var i, q := FirstAccepted(p, s.queue), s.queue + world[0];
    FirstAcceptedIs(p, q, i);
    var (s', more) := ScanStep(p, infinite, s, world[0]);
    StepRounds(p, infinite, s, world[0], log);
    FlattenCons(world);
    RemoveAppend(s.queue, i, world[0], Flatten(world[1..]));
    if s.skipped < i {
      ConsumedInTime(p, infinite, s', log + more, world[1..]);
    } else {
      assert world[1..] == [] && RemoveAt(q, i) + [] == RemoveAt(q, i);
    }
  }

  /**
   An iteration takes the first message that is not skipped, arrivals included. If there is none, a
   finite timeout expires exactly once, and an infinite one waits.
   */
  lemma IterationLogs(p: Pattern, infinite: bool, s: Scan, arrived: seq<Message>)
    requires s.skipped <= |s.queue|
    ensures var (s', log) := ScanStep(p, infinite, s, arrived);
            var unskipped := s.queue[s.skipped..] + arrived;
            if unskipped == [] then log == (if infinite then [] else [TimedOut]) && s' == s
            else if p.Accepts(unskipped[0]) then
              log == ArrivedAll(arrived) + [Consumed(unskipped[0])] && s' == Scan(s.queue[..s.skipped] + unskipped[1..], 0)
            else log == ArrivedAll(arrived) && s' == Scan(s.queue + arrived, s.skipped + 1)
  {
    var q, unskipped := s.queue + arrived, s.queue[s.skipped..] + arrived;
    assert q == s.queue[..s.skipped] + unskipped;
    if unskipped == [] {
      assert s.skipped == |s.queue| && arrived == [] && s.queue + [] == s.queue;
      assert ArrivedAll(arrived) == [];
    }
  }

  /** With a finite timeout, an iteration completes a round or skips a message, so rounds cannot fail to come. */
  lemma {:induction false} NoRoundYet(
    p: Pattern, infinite: bool, rounds: nat, s: Scan, log: seq<Entry>, world: seq<seq<Message>>)
    requires s.skipped <= |s.queue|
    ensures var (s', log', _) := ScanAll(p, infinite, rounds, s, log, world);
            !infinite && Rounds(log') <= Rounds(log) < rounds ==>
              s.skipped + |world| == s'.skipped <= |s.queue| + |Flatten(world)|
    ensures Rounds(ScanAll(p, infinite, rounds, s, log, world).1) >= Rounds(log)
    decreases |world|
  {
    if world != [] && Rounds(log) < rounds {
      var (s', more) := ScanStep(p, infinite, s, world[0]);
      StepRounds(p, infinite, s, world[0], log);
      NoRoundYet(p, infinite, rounds, s', log + more, world[1..]);
      FlattenCons(world);
    }
  }

  /** Whatever is in a log and no arrival is a completed round. */
  lemma {:induction false} RoundsAreTheRest(log: seq<Entry>)
    ensures Rounds(log) + |Arrivals(log)| == |log|
  {
    if log != [] {
      RoundsAreTheRest(log[..|log| - 1]);
    }
  }

  lemma {:induction false} FlattenCons<T>(s: seq<seq<T>>)
    requires s != []
    ensures Flatten(s) == s[0] + Flatten(s[1..])
  {
    if |s| > 1 {
      FlattenCons(s[..|s| - 1]);
      assert s[..|s| - 1][1..] == s[1..][..|s| - 2];
      Assoc(s[0], Flatten(s[1..][..|s| - 2]), s[|s| - 1]);
    }
  }

  lemma {:induction false} RoundsConcat(log: seq<Entry>, more: seq<Entry>)
    ensures Rounds(log + more) == Rounds(log) + Rounds(more)
    decreases |more|
  {
    if more == [] {
      assert log + more == log;
    } else {
      RoundsConcat(log, more[..|more| - 1]);
      assert (log + more)[..|log + more| - 1] == log + more[..|more| - 1];
    }
  }

  lemma StepRounds(p: Pattern, infinite: bool, s: Scan, arrived: seq<Message>, log: seq<Entry>)
    ensures var (s', more) := ScanStep(p, infinite, s, arrived);
            Rounds(log + more) == Rounds(log) + Rounds(more) && Rounds(more) == |more| - |arrived|
  {
    var (s', more) := ScanStep(p, infinite, s, arrived);
    RoundsConcat(log, more);
    ReplayArrivals(p, [], arrived);
    if more != ArrivedAll(arrived) {
      assert more[..|more| - 1] == ArrivedAll(arrived);
    }
  }

  /**
   A receive that is not done consumes the oldest acceptable message of its queue as soon as the world
   goes on for as many iterations as there are messages up to it.
   */
  lemma {:induction false} ReceiveProgress(p: Pattern, infinite: bool, rounds: nat, s: Scan, log: seq<Entry>, world: seq<seq<Message>>)
    requires var i := FirstAccepted(p, s.queue); s.skipped <= i < |s.queue| && |world| > i - s.skipped
    requires Rounds(log) < rounds
    ensures var n := FirstAccepted(p, s.queue) - s.skipped + 1;
            var (s', log') := Iterations(p, infinite, s, log, world[..n]);
            && Rounds(log') == Rounds(log) + 1
            && log'[|log'| - 1] == Consumed(s.queue[FirstAccepted(p, s.queue)])
            && ScanAll(p, infinite, rounds, s, log, world) == ScanAll(p, infinite, rounds, s', log', world[n..])
    decreases |world|
  {
    var i := FirstAccepted(p, s.queue);
    var n := i - s.skipped + 1;
    ConsumedInTime(p, infinite, s, log, world[..n]);
    SameIterations(p, infinite, rounds, s, log, world, n);
  }

  lemma {:induction false} SameIterations(p: Pattern, infinite: bool, rounds: nat, s: Scan, log: seq<Entry>, world: seq<seq<Message>>, n: nat)
    requires var i := FirstAccepted(p, s.queue); s.skipped <= i < |s.queue| && n == i - s.skipped + 1 <= |world|
    requires Rounds(log) < rounds
    ensures var (s', log') := Iterations(p, infinite, s, log, world[..n]);
            ScanAll(p, infinite, rounds, s, log, world) == ScanAll(p, infinite, rounds, s', log', world[n..])
    decreases n
  {
    var i, q := FirstAccepted(p, s.queue), s.queue + world[0];
    var (s', more) := ScanStep(p, infinite, s, world[0]);
    assert world[..n][1..] == world[1..][..n - 1] && world[1..][n - 1..] == world[n..];
    if s.skipped < i {
      FirstAcceptedIs(p, q, i);
      assert !p.Accepts(q[s.skipped]);
      StepRounds(p, infinite, s, world[0], log);
      SameIterations(p, infinite, rounds, s', log + more, world[1..], n - 1);
    } else {
      assert world[..n][1..] == [];
    }
  }

  lemma {:induction false} ReversedMembers<T>(s: seq<T>, x: T)
    ensures x in Reversed(s) <==> x in s
  {
    if s != [] {
      ReversedMembers(s[1..], x);
      assert s == [s[0]] + s[1..];
    }
  }

  /** The head of the mailbox is the first message behind the skipped ones. */
  lemma PopFirst(skipped: seq<Message>, mailbox: seq<Message>)
    requires mailbox != []
    ensures (skipped + mailbox)[|skipped|] == mailbox[0]
    ensures (skipped + [mailbox[0]]) + mailbox[1..] == skipped + mailbox
    ensures RemoveAt(skipped + mailbox, |skipped|) == skipped + mailbox[1..]
  {
  }

  // -- What the single queue promises ------------------------------------------

  lemma {:induction false} SelectConcat(p: Pattern, accepted: bool, s: seq<Message>, t: seq<Message>)
    ensures Select(p, accepted, s + t) == Select(p, accepted, s) + Select(p, accepted, t)
  {
    if t == [] {
      assert s + t == s;
    } else {
      var front := t[..|t| - 1];
      SelectConcat(p, accepted, s, front);
      assert (s + t)[..|s + t| - 1] == s + front;
    }
  }

  lemma SelectSnoc(p: Pattern, accepted: bool, s: seq<Message>, m: Message)
    ensures Select(p, accepted, s + [m]) == Select(p, accepted, s) + (if p.Accepts(m) == accepted then [m] else [])
  {
    assert (s + [m])[..|s|] == s;
  }

  lemma {:induction false} SelectAll(p: Pattern, accepted: bool, s: seq<Message>)
    requires forall k :: 0 <= k < |s| ==> p.Accepts(s[k]) == accepted
    ensures Select(p, accepted, s) == s && Select(p, !accepted, s) == []
  {
    if s != [] {
      SelectAll(p, accepted, s[..|s| - 1]);
    }
  }

  lemma SelectSplit(p: Pattern, accepted: bool, before: seq<Message>, m: Message, after: seq<Message>)
    requires p.Accepts(m) && forall k :: 0 <= k < |before| ==> !p.Accepts(before[k])
    ensures Select(p, accepted, before + [m] + after) == (if accepted then [m] else []) + Select(p, accepted, before + after)
  {
    var x, a, b := if accepted then [m] else [], Select(p, accepted, before), Select(p, accepted, after);
    SelectAll(p, false, before);
    SelectSnoc(p, accepted, before, m);
    SelectConcat(p, accepted, before + [m], after);
    SelectConcat(p, accepted, before, after);
    Swap(a, x, b);
  }

  lemma Swap(a: seq<Message>, x: seq<Message>, b: seq<Message>)
    requires a == [] || x == []
    ensures a + x + b == x + (a + b)
  {
    if a == [] {
      assert a + x == x && a + b == b;
    } else {
      assert a + x == a && x + (a + b) == a + b;
    }
  }

  /** Removing the oldest acceptable message. */
  lemma SelectRemoved(p: Pattern, q: seq<Message>)
    requires FirstAccepted(p, q) < |q|
    ensures var i := FirstAccepted(p, q);
            var rest := q[..i] + q[i + 1..];
            && Select(p, true, q) == [q[i]] + Select(p, true, rest)
            && Select(p, false, q) == Select(p, false, rest)
  {
    var i := FirstAccepted(p, q);
    var before, m, after := q[..i], q[i], q[i + 1..];
    assert q == before + [m] + after;
    SelectSplit(p, true, before, m, after);
    SelectSplit(p, false, before, m, after);
  }

  /** What an entry adds to the arrived and to the consumed messages. */
  function ArrivedBy(e: Entry): (r: seq<Message>) {
    if e.Arrived? then [e.m] else []
  }

  function ConsumedBy(e: Entry): (r: seq<Message>) {
    if e.Consumed? then [e.m] else []
  }

  ghost predicate Fair(p: Pattern, seen: seq<Message>, consumed: seq<Message>, q: seq<Message>) {
    && Select(p, true, seen) == consumed + Select(p, true, q)
    && Select(p, false, seen) == Select(p, false, q)
  }

  lemma FairArrived(p: Pattern, seen: seq<Message>, consumed: seq<Message>, q: seq<Message>, m: Message)
    requires Fair(p, seen, consumed, q)
    ensures Fair(p, seen + [m], consumed, q + [m])
  {
    SelectSnoc(p, true, seen, m);
    SelectSnoc(p, false, seen, m);
    SelectSnoc(p, true, q, m);
    SelectSnoc(p, false, q, m);
  }

  lemma FairConsumed(p: Pattern, seen: seq<Message>, consumed: seq<Message>, q: seq<Message>, m: Message)
    requires Fair(p, seen, consumed, q) && QueueStep(p, q, Consumed(m)).Some?
    ensures Fair(p, seen, consumed + [m], QueueStep(p, q, Consumed(m)).value)
  {
    SelectRemoved(p, q);
    var rest := QueueStep(p, q, Consumed(m)).value;
    assert consumed + ([m] + Select(p, true, rest)) == (consumed + [m]) + Select(p, true, rest);
  }

  lemma FairStep(p: Pattern, seen: seq<Message>, consumed: seq<Message>, q: seq<Message>, e: Entry)
    requires Fair(p, seen, consumed, q) && QueueStep(p, q, e).Some?
    ensures Fair(p, seen + ArrivedBy(e), consumed + ConsumedBy(e), QueueStep(p, q, e).value)
  {
    match e
    case Arrived(m) =>
      FairArrived(p, seen, consumed, q, m);
      assert consumed + ConsumedBy(e) == consumed;
    case Consumed(m) =>
      FairConsumed(p, seen, consumed, q, m);
      assert seen + ArrivedBy(e) == seen;
    case TimedOut =>
      assert seen + ArrivedBy(e) == seen;
      assert consumed + ConsumedBy(e) == consumed;
  }

  /**
   Acceptable messages leave in arrival order and exactly once, all other messages stay in arrival
   order: whatever was queued or arrived is consumed or still queued.
   */
  lemma {:induction false} ReceiveIsFair(p: Pattern, q: seq<Message>, log: seq<Entry>)
    requires Replay(p, q, log).Some?
    ensures Fair(p, q + Arrivals(log), Consumptions(log), Replay(p, q, log).value)
    decreases |log|
  {
    if log == [] {
      assert q + Arrivals(log) == q;
    } else {
      var front, e := log[..|log| - 1], log[|log| - 1];
      ReceiveIsFair(p, q, front);
      FairStep(p, q + Arrivals(front), Consumptions(front), Replay(p, q, front).value, e);
      assert q + Arrivals(log) == q + Arrivals(front) + ArrivedBy(e);
    }
  }

  // -- Any number of receives ---------------------------------------------------

  /** Consecutive calls of receive_impl, each with its own pattern and log. */
  function ReplayCalls(q: seq<Message>, calls: seq<(Pattern, seq<Entry>)>): (r: Option<seq<Message>>)
    decreases |calls|
  {
    if calls == [] then Some(q)
    else match Replay(calls[0].0, q, calls[0].1)
      case None => None
      case Some(q') => ReplayCalls(q', calls[1..])
  }

  function AllArrivals(calls: seq<(Pattern, seq<Entry>)>): (r: seq<Message>) {
    if calls == [] then [] else Arrivals(calls[0].1) + AllArrivals(calls[1..])
  }

  function AllConsumptions(calls: seq<(Pattern, seq<Entry>)>): (r: seq<Message>) {
    if calls == [] then [] else Consumptions(calls[0].1) + AllConsumptions(calls[1..])
  }

  lemma {:induction false} SubsequenceRefl<T>(s: seq<T>)
    ensures Subsequence(s, s)
  {
    if s != [] {
      SubsequenceRefl(s[1..]);
    }
  }

  lemma {:induction false} SubsequenceTrans<T>(s: seq<T>, t: seq<T>, u: seq<T>)
    requires Subsequence(s, t) && Subsequence(t, u)
    ensures Subsequence(s, u)
    decreases |u|
  {
    if s != [] {
      if t[0] == u[0] && Subsequence(t[1..], u[1..]) {
        if s[0] == t[0] && Subsequence(s[1..], t[1..]) {
          SubsequenceTrans(s[1..], t[1..], u[1..]);
        } else {
          SubsequenceTrans(s, t[1..], u[1..]);
        }
      } else {
        SubsequenceTrans(s, t, u[1..]);
      }
    }
  }

  lemma {:induction false} SubsequenceAppend<T>(s: seq<T>, t: seq<T>, tail: seq<T>)
    requires Subsequence(s, t)
    ensures Subsequence(s + tail, t + tail)
    decreases |t|
  {
    if t == [] {
      assert s == [];
      SubsequenceRefl(tail);
      assert s + tail == tail == t + tail;
    } else {
      assert (t + tail)[1..] == t[1..] + tail;
      if s != [] && s[0] == t[0] && Subsequence(s[1..], t[1..]) {
        SubsequenceAppend(s[1..], t[1..], tail);
        assert (s + tail)[1..] == s[1..] + tail;
      } else {
        assert Subsequence(s, t[1..]);
        SubsequenceAppend(s, t[1..], tail);
      }
    }
  }

  lemma {:induction false} SubsequenceRemove<T>(q: seq<T>, i: nat)
    requires i < |q|
    ensures Subsequence(q[..i] + q[i + 1..], q)
    decreases i
  {
    if i == 0 {
      SubsequenceRefl(q[1..]);
      assert q[..0] + q[1..] == q[1..];
    } else {
      SubsequenceRemove(q[1..], i - 1);
      assert (q[..i] + q[i + 1..])[1..] == q[1..][..i - 1] + q[1..][i..];
    }
  }

  /** Everything seen is consumed or queued, and the queue keeps the order of arrival. */
  ghost predicate Conserved(seen: seq<Message>, consumed: seq<Message>, q: seq<Message>) {
    multiset(seen) == multiset(consumed) + multiset(q) && Subsequence(q, seen)
  }

  lemma ConserveArrived(seen: seq<Message>, consumed: seq<Message>, q: seq<Message>, m: Message)
    requires Conserved(seen, consumed, q)
    ensures Conserved(seen + [m], consumed, q + [m])
  {
    SubsequenceAppend(q, seen, [m]);
  }

  lemma ConserveConsumed(seen: seq<Message>, consumed: seq<Message>, q: seq<Message>, i: nat)
    requires Conserved(seen, consumed, q) && i < |q|
    ensures Conserved(seen, consumed + [q[i]], q[..i] + q[i + 1..])
  {
    assert q == q[..i] + [q[i]] + q[i + 1..];
    SubsequenceRemove(q, i);
    SubsequenceTrans(q[..i] + q[i + 1..], q, seen);
  }

  lemma ConserveStep(p: Pattern, seen: seq<Message>, consumed: seq<Message>, q: seq<Message>, e: Entry)
    requires Conserved(seen, consumed, q) && QueueStep(p, q, e).Some?
    ensures Conserved(seen + ArrivedBy(e), consumed + ConsumedBy(e), QueueStep(p, q, e).value)
  {
    assert e.Arrived? || seen + ArrivedBy(e) == seen;
    assert e.Consumed? || consumed + ConsumedBy(e) == consumed;
    if e.Arrived? {
      ConserveArrived(seen, consumed, q, e.m);
    } else if e.Consumed? {
      ConserveConsumed(seen, consumed, q, FirstAccepted(p, q));
    }
  }

  lemma {:induction false} ReplayConserves(p: Pattern, q: seq<Message>, log: seq<Entry>)
    requires Replay(p, q, log).Some?
    ensures Conserved(q + Arrivals(log), Consumptions(log), Replay(p, q, log).value)
    decreases |log|
  {
    if log == [] {
      SubsequenceRefl(q);
      assert q + Arrivals(log) == q;
    } else {
      var front, e := log[..|log| - 1], log[|log| - 1];
      ReplayConserves(p, q, front);
      Assoc(q, Arrivals(front), ArrivedBy(e));
      ConserveStep(p, q + Arrivals(front), Consumptions(front), Replay(p, q, front).value, e);
    }
  }

  lemma ConserveTrans(seen: seq<Message>, consumed: seq<Message>, q: seq<Message>,
                      more: seq<Message>, consumed': seq<Message>, q': seq<Message>)
    requires Conserved(seen, consumed, q) && Conserved(q + more, consumed', q')
    ensures Conserved(seen + more, consumed + consumed', q')
  {
    SubsequenceAppend(q, seen, more);
    SubsequenceTrans(q', q + more, seen + more);
    assert multiset(q + more) == multiset(q) + multiset(more);
    assert multiset(seen + more) == multiset(seen) + multiset(more);
    assert multiset(consumed + consumed') == multiset(consumed) + multiset(consumed');
    assert multiset(seen) + multiset(more) == multiset(consumed) + (multiset(q) + multiset(more));
  }

  /** Over any run of receives no message is lost, duplicated or reordered. */
  lemma {:induction false} CallsConserve(q: seq<Message>, calls: seq<(Pattern, seq<Entry>)>)
    requires ReplayCalls(q, calls).Some?
    ensures Conserved(q + AllArrivals(calls), AllConsumptions(calls), ReplayCalls(q, calls).value)
    decreases |calls|
  {
    if calls == [] {
      SubsequenceRefl(q);
      assert q + AllArrivals(calls) == q;
    } else {
      var (p, log) := calls[0];
      var mid := Replay(p, q, log).value;
      ReplayConserves(p, q, log);
      CallsConserve(mid, calls[1..]);
      ConserveTrans(q + Arrivals(log), Consumptions(log), mid,
                    AllArrivals(calls[1..]), AllConsumptions(calls[1..]), ReplayCalls(q, calls).value);
      Assoc(q, Arrivals(log), AllArrivals(calls[1..]));
    }
  }
}
