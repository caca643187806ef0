/**
 The block/notify handshake between the owner of a blocking actor and any number of producers.

 Producers run `enqueue`: an atomic push and, only if the push unblocked the reader, lock, notify,
 unlock. The owner runs `await_data`: an atomic try_block, then under the lock it waits on the
 condition variable for as long as the mailbox is blocked, possibly with a deadline. Every atomic
 operation is one step and steps interleave freely. Producers are anonymous, so a state counts how
 many of them stand before the lock.
 */
module MailboxHandshake {
  import opened Basics

  // -- The mailbox contract, as one FIFO ----------------------------------------

  datatype InboxResult = Success | UnblockedReader | QueueClosed

  datatype Mailbox = Mailbox(queue: seq<int>, blocked: bool, closed: bool)
  {
    ghost predicate Valid() {
      (blocked ==> queue == [] && !closed) && (closed ==> queue == [])
    }

    function PushBack(m: int): (r: (Mailbox, InboxResult)) {
      if closed then (this, QueueClosed)
      else (Mailbox(queue + [m], false, false), if blocked then UnblockedReader else Success)
    }

    function TryBlock(): (r: (Mailbox, bool)) {
      if queue == [] && !blocked && !closed then (this.(blocked := true), true) else (this, false)
    }

    function TryUnblock(): (r: (Mailbox, bool)) {
      if blocked then (this.(blocked := false), true) else (this, false)
    }
  }

  /** The mailbox object. */
  class FifoMailbox {
    var queue: seq<int>
    var isBlocked: bool
    var isClosed: bool

    function View(): Mailbox
      reads this
    {
      Mailbox(queue, isBlocked, isClosed)
    }

    constructor ()
      ensures View() == Mailbox([], false, false)
    {
      queue, isBlocked, isClosed := [], false, false;
    }

    method PushBack(m: int) returns (result: InboxResult)
      requires View().Valid()
      modifies this
      ensures View().Valid() && (View(), result) == old(View()).PushBack(m)
      ensures old(isClosed) ==> result == QueueClosed && View() == old(View())
      ensures !old(isClosed) ==>
                && queue == old(queue) + [m] && !isBlocked && !isClosed
                && result == if old(isBlocked) then UnblockedReader else Success
    {
      if isClosed {
        result := QueueClosed;
      } else {
        result := if isBlocked then UnblockedReader else Success;
        queue, isBlocked := queue + [m], false;
      }
    }

    method PushFront(m: int)
      requires View().Valid() && !isBlocked && !isClosed
      modifies this
      ensures View().Valid() && View() == old(View()).(queue := [m] + old(queue))
    {
      queue := [m] + queue;
    }

    method PopFront() returns (found: bool, m: int)
      requires View().Valid()
      modifies this
      ensures View().Valid() && found == (old(queue) != [])
      ensures if found then m == old(queue)[0] && View() == old(View()).(queue := old(queue)[1..])
              else View() == old(View())
    {
      found, m := queue != [], 0;
      if found {
        m, queue := queue[0], queue[1..];
      }
    }

    method TryBlock() returns (ok: bool)
      requires View().Valid()
      modifies this
      ensures View().Valid() && (View(), ok) == old(View()).TryBlock()
      ensures ok <==> old(queue) == [] && !old(isBlocked) && !old(isClosed)
      ensures queue == old(queue) && isClosed == old(isClosed) && (isBlocked <==> ok || old(isBlocked))
    {
      ok := |queue| == 0 && !isBlocked && !isClosed;
      if ok {
        isBlocked := true;
      }
    }

    method TryUnblock() returns (ok: bool)
      requires View().Valid()
      modifies this
      ensures View().Valid() && (View(), ok) == old(View()).TryUnblock()
      ensures (ok <==> old(isBlocked)) && !isBlocked && queue == old(queue) && isClosed == old(isClosed)
    {
      ok := isBlocked;
      if ok {
        isBlocked := false;
      }
    }

    method Close() returns (dropped: nat)
      requires View().Valid()
      modifies this
      ensures View() == Mailbox([], false, true) && View().Valid() && dropped == |old(queue)|
    {
      dropped := |queue|;
      queue, isBlocked, isClosed := [], false, true;
    }
  }

  // -- The protocol ---------------------------------------------------------------

  /** Where the owner stands; the comments quote the condition it is about to evaluate or has evaluated. */
  datatype Owner =
    | Outside          // not in await_data
    | WantLock         // try_block succeeded
    | Checking         // holds the lock, about to test blocked()
    | Committed        // holds the lock, saw blocked(), about to wait
    | Sleeping         // waits on the condition variable, lock released
    | Awake            // left the wait, has to take the lock again
    | Expired          // left the wait because of the deadline, has to take the lock again
    | ExpiredLocked    // holds the lock, about to call try_unblock
    | HasData          // await_data returned true
    | NoData           // await_data returned false
    | Terminated       // closed its mailbox

  datatype Lock = Free | ByOwner | ByProducer(notified: bool)

  datatype State = State(mailbox: Mailbox, owner: Owner, lock: Lock, owing: nat)

  const INITIAL := State(Mailbox([], false, false), Outside, Free, 0)

  datatype Event =
    | Push(m: int) | ProducerLock | ProducerNotify | ProducerUnlock
    | TryBlock | OwnerLock | Check | Wait | SpuriousWake | DeadlineWake | Relock | RelockExpired
    | TryUnblock | Pop | Resume | PushFront(m: int) | Close

  predicate Enabled(s: State, e: Event)
  {
    match e
    case Push(_) => true
    case ProducerLock => s.owing > 0 && s.lock == Free
    case ProducerNotify => s.lock == ByProducer(false)
    case ProducerUnlock => s.lock == ByProducer(true)
    case TryBlock => s.owner == Outside
    case OwnerLock => s.owner == WantLock && s.lock == Free
    case Check => s.owner == Checking
    case Wait => s.owner == Committed
    case SpuriousWake => s.owner == Sleeping
    case DeadlineWake => s.owner == Sleeping || s.owner == Awake
    case Relock => s.owner == Awake && s.lock == Free
    case RelockExpired => s.owner == Expired && s.lock == Free
    case TryUnblock => s.owner == ExpiredLocked
    case Pop => s.owner == HasData
    case Resume => s.owner == NoData
    case PushFront(_) => s.owner == Outside
    case Close => s.owner == Outside
  }

  function Step(s: State, e: Event): (s': State)
    requires Enabled(s, e)
  {
    match e
    case Push(m) =>
      var (mailbox, result) := s.mailbox.PushBack(m);
      s.(mailbox := mailbox, owing := s.owing + if result == UnblockedReader then 1 else 0)
    case ProducerLock => s.(owing := s.owing - 1, lock := ByProducer(false))
    case ProducerNotify => s.(lock := ByProducer(true), owner := if s.owner == Sleeping then Awake else s.owner)
    case ProducerUnlock => s.(lock := Free)
    case TryBlock =>
      var (mailbox, ok) := s.mailbox.TryBlock();
      s.(mailbox := mailbox, owner := if ok then WantLock else HasData)
    case OwnerLock => s.(lock := ByOwner, owner := Checking)
    case Check => if s.mailbox.blocked then s.(owner := Committed) else s.(lock := Free, owner := HasData)
    case Wait => s.(lock := Free, owner := Sleeping)
    case SpuriousWake => s.(owner := Awake)
    case DeadlineWake => s.(owner := Expired)
    case Relock => s.(lock := ByOwner, owner := Checking)
    case RelockExpired => s.(lock := ByOwner, owner := ExpiredLocked)
    case TryUnblock =>
      var (mailbox, ok) := s.mailbox.TryUnblock();
      s.(mailbox := mailbox, lock := Free, owner := if ok then NoData else HasData)
    case Pop =>
      if s.mailbox.queue == [] then s.(owner := Outside)  // the null element the caller would dereference
      else s.(mailbox := s.mailbox.(queue := s.mailbox.queue[1..]), owner := Outside)
    case Resume => s.(owner := Outside)
    case PushFront(m) => s.(mailbox := s.mailbox.(queue := [m] + s.mailbox.queue))
    case Close => s.(mailbox := Mailbox([], false, true), owner := Terminated)
  }

  ghost predicate Reaches(s: State, run: seq<Event>, t: State)
    decreases |run|
  {
    if run == [] then s == t else Enabled(s, run[0]) && Reaches(Step(s, run[0]), run[1..], t)
  }

  /** The owner has blocked its mailbox and has not returned from await_data yet. */
  predicate InWait(o: Owner) {
    o in {WantLock, Checking, Committed, Sleeping, Awake, Expired, ExpiredLocked}
  }

  ghost predicate Inv(s: State)
  {
    && s.mailbox.Valid()
    && (s.mailbox.closed <==> s.owner == Terminated)
    && (s.mailbox.blocked ==> InWait(s.owner))
    && (InWait(s.owner) && !s.mailbox.blocked ==> s.mailbox.queue != [])
    && (s.owner == HasData ==> s.mailbox.queue != [])
    && (s.lock == ByOwner <==> s.owner in {Checking, Committed, ExpiredLocked})
    && (s.owner == Committed && !s.mailbox.blocked ==> s.owing > 0)
    && (s.owner == Sleeping && !s.mailbox.blocked ==> s.owing > 0 || s.lock == ByProducer(false))
  }

  lemma StepInv(s: State, e: Event)
    requires Inv(s) && Enabled(s, e)
    ensures Inv(Step(s, e))
  {
  }

  lemma {:induction false} RunInv(s: State, run: seq<Event>, t: State)
    requires Inv(s) && Reaches(s, run, t)
    ensures Inv(t)
    decreases |run|
  {
    if run != [] {
      StepInv(s, run[0]);
      RunInv(Step(s, run[0]), run[1..], t);
    }
  }

  /** An owner asleep beside an unblocked mailbox still gets a notification from some producer. */
  lemma NoLostWakeup(run: seq<Event>, s: State)
    requires Reaches(INITIAL, run, s)
    ensures s.owner == Sleeping && !s.mailbox.blocked ==>
              s.mailbox.queue != [] && (s.owing > 0 || s.lock == ByProducer(false))
    ensures s.owner == Sleeping && s.mailbox.queue != [] ==> s.owing > 0 || s.lock == ByProducer(false)
  {
    RunInv(INITIAL, run, s);
  }

  /**
   Whenever await_data reports data the next pop finds a message, also when the deadline passed and
   the producer won the race for try_unblock; if it reports no data, the mailbox was empty and is
   ready to block again.
   */
  lemma AwaitDataIsRight(run: seq<Event>, s: State, e: Event)
    requires Reaches(INITIAL, run, s) && Enabled(s, e)
    ensures s.owner == HasData ==> s.mailbox.queue != [] && !s.mailbox.blocked
    ensures s.owner != NoData && Step(s, e).owner == NoData ==>
              e == TryUnblock && s.mailbox.blocked && s.mailbox.queue == []
    ensures s.owner == ExpiredLocked && e == TryUnblock ==>
              (Step(s, e).owner == HasData <==> s.mailbox.queue != [])
    ensures s.owner == Outside || s.owner == NoData ==> !s.mailbox.blocked
  {
    RunInv(INITIAL, run, s);
  }

  // -- Messages -----------------------------------------------------------------------------

  function PushedBy(e: Event): (ms: seq<int>) {
    if e.Push? then [e.m] else []
  }

  function Pushed(run: seq<Event>): (ms: seq<int>) {
    if run == [] then [] else PushedBy(run[0]) + Pushed(run[1..])
  }

  /** What the owner fetches in one step. */
  function FetchedBy(s: State, e: Event): (ms: seq<int>) {
    if e == Pop && s.mailbox.queue != [] then [s.mailbox.queue[0]] else []
  }

  ghost function Fetched(s: State, run: seq<Event>): (ms: seq<int>)
    decreases |run|
  {
    if run == [] || !Enabled(s, run[0]) then [] else FetchedBy(s, run[0]) + Fetched(Step(s, run[0]), run[1..])
  }

  predicate InOrder(e: Event) {
    !e.PushFront? && e != Close
  }

  lemma StepIsFifo(s: State, e: Event)
    requires Enabled(s, e) && !s.mailbox.closed && InOrder(e)
    ensures s.mailbox.queue + PushedBy(e) == FetchedBy(s, e) + Step(s, e).mailbox.queue
    ensures !Step(s, e).mailbox.closed
  {
    if e == Pop && s.mailbox.queue != [] {
      assert s.mailbox.queue == [s.mailbox.queue[0]] + s.mailbox.queue[1..];
    }
  }

  lemma Chain(q: seq<int>, p: seq<int>, ps: seq<int>, f: seq<int>, fs: seq<int>, q1: seq<int>, q2: seq<int>)
    requires q + p == f + q1 && q1 + ps == fs + q2
    ensures q + (p + ps) == f + fs + q2
  {
    Assoc(q, p, ps);
    Assoc(f, q1, ps);
    Assoc(f, fs, q2);
  }

  /**
   While the mailbox is open, messages are fetched in the order in which they were pushed, and what was
   pushed and not fetched is queued.
   */
  lemma {:induction false} MailboxIsFifo(s: State, run: seq<Event>, t: State)
    requires Reaches(s, run, t) && !s.mailbox.closed && forall i :: 0 <= i < |run| ==> InOrder(run[i])
    ensures s.mailbox.queue + Pushed(run) == Fetched(s, run) + t.mailbox.queue && !t.mailbox.closed
    decreases |run|
  {
    if run == [] {
      assert s.mailbox.queue + [] == [] + t.mailbox.queue;
    } else {
      var s1 := Step(s, run[0]);
      StepIsFifo(s, run[0]);
      MailboxIsFifo(s1, run[1..], t);
      Chain(s.mailbox.queue, PushedBy(run[0]), Pushed(run[1..]), FetchedBy(s, run[0]), Fetched(s1, run[1..]),
            s1.mailbox.queue, t.mailbox.queue);
    }
  }

  /** A message that the owner puts back is the next one that it fetches, without waiting. */
  lemma PutBackIsNext(s: State, m: int)
    requires Inv(s) && Enabled(s, PushFront(m))
    ensures var s1 := Step(s, PushFront(m));
            && Enabled(s1, TryBlock)
            && var s2 := Step(s1, TryBlock);
               && s2.owner == HasData && FetchedBy(s2, Pop) == [m]
               && Step(s2, Pop) == s
  {
  }

  // -- Every schedule wakes the owner ---------------------------------------------------

  /** A step other than a new message, or rest. No thread is obliged to wake up without a notification. */
  ghost predicate Proceeds(s: State, t: State) {
    || (exists e: Event :: !e.Push? && Enabled(s, e) && t == Step(s, e))
    || (t == s && forall e: Event :: !e.Push? && e != SpuriousWake && e != DeadlineWake ==> !Enabled(s, e))
  }

  function OwnerRank(o: Owner): (n: nat) {
    match o
    case Committed => 5 case Sleeping => 4 case Awake => 3 case Expired => 2 case WantLock => 2
    case Checking => 1 case ExpiredLocked => 1 case _ => 0
  }

  function ProducerRank(s: State): (n: nat) {
    3 * s.owing + match s.lock case ByProducer(notified) => (if notified then 1 else 2) case _ => 0
  }

  ghost predicate Closer(t: State, s: State) {
    || OwnerRank(t.owner) < OwnerRank(s.owner)
    || (OwnerRank(t.owner) == OwnerRank(s.owner) && ProducerRank(t) < ProducerRank(s))
  }

  /** The owner waits, and there is a message. */
  ghost predicate DataWaits(s: State) {
    Inv(s) && InWait(s.owner) && s.mailbox.queue != []
  }

  lemma StepRanks(s: State, e: Event)
    requires DataWaits(s) && !e.Push? && Enabled(s, e)
    ensures var t := Step(s, e); t.mailbox == s.mailbox && (InWait(t.owner) || t.owner == HasData) && Closer(t, s)
  {
  }

  lemma NotStuck(s: State)
    requires DataWaits(s)
    ensures exists e: Event :: !e.Push? && e != SpuriousWake && e != DeadlineWake && Enabled(s, e)
  {
    assert Enabled(s, OwnerLock) || Enabled(s, Check) || Enabled(s, Wait) || Enabled(s, Relock)
           || Enabled(s, RelockExpired) || Enabled(s, TryUnblock)
           || Enabled(s, ProducerLock) || Enabled(s, ProducerNotify) || Enabled(s, ProducerUnlock);
  }

  lemma ProceedsRanks(s: State, t: State)
    requires DataWaits(s) && Proceeds(s, t)
    ensures t.mailbox == s.mailbox && Closer(t, s) && (DataWaits(t) || t.owner == HasData)
  {
    NotStuck(s);
    var e: Event :| !e.Push? && Enabled(s, e) && t == Step(s, e);
    StepInv(s, e);
    StepRanks(s, e);
  }

  /** An owner that waits beside a message reports data under every schedule, without any further message. */
  lemma {:induction false} WakeupCompletes(trace: nat -> State, i: nat)
    requires DataWaits(trace(i))
    requires forall k: nat :: k >= i ==> Proceeds(trace(k), trace(k + 1))
    ensures exists k: nat :: k >= i && trace(k).owner == HasData && trace(k).mailbox == trace(i).mailbox
    decreases OwnerRank(trace(i).owner), ProducerRank(trace(i))
  {
    var s, t := trace(i), trace(i + 1);
    assert Proceeds(s, t);
    ProceedsRanks(s, t);
    if t.owner != HasData {
      WakeupCompletes(trace, i + 1);
    }
  }

  // -- The owner's side, among producers ----------------------------------------------------

  lemma {:induction false} ReachesNext(s: State, run: seq<Event>, t: State, e: Event)
    requires Reaches(s, run, t) && Enabled(t, e)
    ensures Reaches(s, run + [e], Step(t, e))
    decreases |run|
  {
    if run == [] {
      assert Reaches(Step(t, e), [], Step(t, e));
      assert (run + [e])[1..] == [];
    } else {
      ReachesNext(Step(s, run[0]), run[1..], t, e);
      assert (run + [e])[1..] == run[1..] + [e];
    }
  }

  predicate IsProducer(e: Event) {
    e.Push? || e == ProducerLock || e == ProducerNotify || e == ProducerUnlock
  }

  datatype Wakeup = Sleeps | Spurious | Deadline

  /** What happens while the owner waits for the lock or sleeps: producers act, or it wakes up on its own. */
  datatype Round = Round(producers: seq<Event>, wakeup: Wakeup)

  predicate OnlyDeadlines(world: seq<Round>) {
    world != [] && forall i :: 0 <= i < |world| ==> world[i].wakeup == Deadline
  }

  /** await_data and enqueue on the mailbox object, with the mutex and the condition variable. */
  class Synchronizer {
    const mailbox: FifoMailbox
    var owner: Owner
    var lock: Lock
    var owing: nat

    function View(): State
      reads this, mailbox
    {
      State(mailbox.View(), owner, lock, owing)
    }

    constructor ()
      ensures fresh(mailbox) && View() == INITIAL
    {
      mailbox := new FifoMailbox();
      owner, lock, owing := Outside, Free, 0;
    }

    /** A step of a producer in enqueue. */
    method Produce(e: Event)
      requires IsProducer(e) && Enabled(View(), e) && View().mailbox.Valid()
      modifies this, mailbox
      ensures View() == Step(old(View()), e) && View().mailbox.Valid()
    {
      match e
      case Push(m) =>
        var result := mailbox.PushBack(m);
        if result == UnblockedReader {
          owing := owing + 1;
        }
      case ProducerLock => owing, lock := owing - 1, ByProducer(false);
      case ProducerNotify =>
        lock := ByProducer(true);
        if owner == Sleeping {
          owner := Awake;
        }
      case ProducerUnlock => lock := Free;
    }

    method Interfere(es: seq<Event>, ghost start: State, ghost before: seq<Event>) returns (ghost run: seq<Event>)
      requires Reaches(start, before, View()) && View().mailbox.Valid()
      modifies this, mailbox
      ensures Reaches(start, run, View()) && View().mailbox.Valid()
      ensures owner == old(owner) || (old(owner) == Sleeping && owner == Awake)
    {
      run := before;
      for i := 0 to |es|
        invariant Reaches(start, run, View()) && View().mailbox.Valid()
        invariant owner == old(owner) || (old(owner) == Sleeping && owner == Awake)
      {
        if IsProducer(es[i]) && Enabled(View(), es[i]) {
          ReachesNext(start, run, View(), es[i]);
          run := run + [es[i]];
          Produce(es[i]);
        }
      }
    }

    /** Takes the mutex; fails only if the world ends before it is free. */
    method TakeLock(world: seq<Round>, k: nat, ghost start: State, ghost before: seq<Event>)
      returns (ok: bool, next: nat, ghost run: seq<Event>)
      requires k <= |world| && Reaches(start, before, View()) && View().mailbox.Valid()
      requires owner == WantLock || owner == Awake || owner == Expired
      modifies this, mailbox
      ensures k <= next <= |world| && Reaches(start, run, View()) && View().mailbox.Valid()
      ensures if ok then owner == if old(owner) == Expired then ExpiredLocked else Checking
              else owner == old(owner) && next == |world| && lock != Free
      ensures old(lock) == Free ==> ok && next == k
    {
      next, run := k, before;
      while lock != Free
        invariant k <= next <= |world| && Reaches(start, run, View()) && View().mailbox.Valid() && owner == old(owner)
        invariant old(lock) == Free ==> next == k && lock == Free
        decreases |world| - next
      {
        if next == |world| {
          return false, next, run;
        }
        run := Interfere(world[next].producers, start, run);
        next := next + 1;
      }
      ghost var e := if owner == WantLock then OwnerLock else if owner == Awake then Relock else RelockExpired;
      ReachesNext(start, run, View(), e);
      run := run + [e];
      lock, owner := ByOwner, if owner == Expired then ExpiredLocked else Checking;
      ok := true;
    }

    /** Sleeps on the condition variable until a notification, a spurious wakeup or the deadline. */
    method Sleep(timed: bool, world: seq<Round>, k: nat, ghost start: State, ghost before: seq<Event>)
      returns (ok: bool, next: nat, ghost run: seq<Event>)
      requires k <= |world| && Reaches(start, before, View()) && View().mailbox.Valid() && owner == Committed
      modifies this, mailbox
      ensures k <= next <= |world| && Reaches(start, run, View()) && View().mailbox.Valid()
      ensures if ok then next > k && (owner == Awake || (timed && owner == Expired)) else owner == Sleeping && next == |world|
      ensures timed && OnlyDeadlines(world) && k < |world| ==> ok && owner == Expired
    {
      ReachesNext(start, before, View(), Wait);
      next, run := k, before + [Wait];
      lock, owner := Free, Sleeping;
      while owner == Sleeping
        invariant k <= next <= |world| && Reaches(start, run, View()) && View().mailbox.Valid()
        invariant owner == Sleeping || (next > k && (owner == Awake || (timed && owner == Expired)))
        invariant timed && OnlyDeadlines(world) ==> owner == Expired || (owner == Sleeping && next == k)
        decreases |world| - next
      {
        if next == |world| {
          return false, next, run;
        }
        run := Interfere(world[next].producers, start, run);
        if timed && world[next].wakeup == Deadline {
          ReachesNext(start, run, View(), DeadlineWake);
          run, owner := run + [DeadlineWake], Expired;
        } else if world[next].wakeup == Spurious && owner == Sleeping {
          ReachesNext(start, run, View(), SpuriousWake);
          run, owner := run + [SpuriousWake], Awake;
        }
        next := next + 1;
      }
      ok := true;
    }

    /** try_unblock after the deadline: the result of await_data. */
    method Expire(ghost start: State, ghost before: seq<Event>) returns (hasData: bool, ghost run: seq<Event>)
      requires Reaches(start, before, View()) && View().mailbox.Valid() && owner == ExpiredLocked
      modifies this, mailbox
      ensures Reaches(start, run, View()) && View().mailbox.Valid()
      ensures owner == if hasData then HasData else NoData
      ensures !hasData ==> mailbox.queue == [] && !mailbox.isBlocked
    {
      ReachesNext(start, before, View(), Event.TryUnblock);
      run := before + [Event.TryUnblock];
      var unblocked := mailbox.TryUnblock();
      hasData := !unblocked;
      lock, owner := Free, if unblocked then NoData else HasData;
    }

    /**
     Both forms of await_data. The result is None if the owner still waits when the world ends. All
     that happens is a run of the protocol.
     */
    method AwaitData(timed: bool, world: seq<Round>) returns (hasData: Option<bool>, ghost run: seq<Event>)
      requires Inv(View()) && owner == Outside
      modifies this, mailbox
      ensures Reaches(old(View()), run, View()) && Inv(View())
      ensures hasData == Some(true) ==> owner == HasData && mailbox.queue != []
      ensures hasData == Some(false) ==> timed && owner == NoData && mailbox.queue == [] && !mailbox.isBlocked
      ensures hasData == None ==> InWait(owner) && (mailbox.isBlocked || owing > 0 || lock != Free)
      ensures timed && old(lock) == Free && OnlyDeadlines(world) && hasData == None ==> lock != Free
      ensures old(mailbox.queue) != [] ==> hasData == Some(true)
    {
      ghost var start := View();
      assert Reaches(start, [], start);
      ReachesNext(start, [], start, Event.TryBlock);
      run := [] + [Event.TryBlock];
      var blocked := mailbox.TryBlock();
      owner := if blocked then WantLock else HasData;
      if !blocked {
        hasData := Some(true);
      } else {
        hasData, run := AwaitBlocked(timed, world, start, run);
      }
      RunInv(start, run, View());
    }

    /** The part of await_data under the lock. */
    method AwaitBlocked(timed: bool, world: seq<Round>, ghost start: State, ghost before: seq<Event>)
      returns (hasData: Option<bool>, ghost run: seq<Event>)
      requires Reaches(start, before, View()) && View().mailbox.Valid() && owner == WantLock
      modifies this, mailbox
      ensures Reaches(start, run, View()) && View().mailbox.Valid()
      ensures hasData == Some(true) ==> owner == HasData
      ensures hasData == Some(false) ==> timed && owner == NoData && mailbox.queue == [] && !mailbox.isBlocked
      ensures hasData == None ==> InWait(owner) && (owner == Sleeping || lock != Free)
      ensures timed && old(lock) == Free && OnlyDeadlines(world) && hasData == None ==> lock != Free
    {
      var k, ok;
      ok, k, run := TakeLock(world, 0, start, before);
      if !ok {
        return None, run;
      }
      while mailbox.isBlocked
        invariant k <= |world| && Reaches(start, run, View()) && View().mailbox.Valid() && owner == Checking
        invariant timed && old(lock) == Free && OnlyDeadlines(world) ==> k == 0
        decreases |world| - k
      {
        ReachesNext(start, run, View(), Check);
        run, owner := run + [Check], Committed;
        ok, k, run := Sleep(timed, world, k, start, run);
        if !ok {
          return None, run;
        }
        var expired := owner == Expired;
        ok, k, run := TakeLock(world, k, start, run);
        if !ok {
          return None, run;
        }
        if expired {
          var found;
          found, run := Expire(start, run);
          return Some(found), run;
        }
      }
      ReachesNext(start, run, View(), Check);
      run := run + [Check];
      lock, owner := Free, HasData;
      hasData := Some(true);
    }
  }
}
