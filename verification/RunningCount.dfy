/**
 The count of running actors and a thread that waits for it to become 0 or 1. Decrementing is one
 atomic step; a decrement to 1 or less then locks the mutex and notifies in a second step.
 Incrementing never notifies.

 `floor` is the number of registrations that last as long as the wait, such as the waiter's own.
 Threads other than the waiter are anonymous: the state counts the notifications they still owe.
 */
module RunningCount {

  datatype Config = Config(expected: nat, floor: nat)

  datatype Pc =
    | Outside    // before the lock
    | Holding    // has the lock, about to compare the count
    | Committed  // has the lock and saw another count, about to wait
    | Asleep     // in wait(), which released the lock
    | Woken      // about to lock again
    | Returned

  datatype State = State(count: nat, owed: nat, pc: Pc)

  datatype Event = Inc | Dec | Notify | Lock | Compare | Sleep | SpuriousWakeup

  predicate Locked(s: State) {
    s.pc == Holding || s.pc == Committed
  }

  predicate Enabled(c: Config, s: State, e: Event) {
    match e
    case Inc => true
    case Dec => s.count > c.floor
    case Notify => s.owed > 0 && !Locked(s)
    case Lock => s.pc == Outside || s.pc == Woken
    case Compare => s.pc == Holding
    case Sleep => s.pc == Committed
    case SpuriousWakeup => s.pc == Asleep
  }

  function Step(c: Config, s: State, e: Event): (s': State)
    requires Enabled(c, s, e)
  {
    match e
    case Inc => s.(count := s.count + 1)
    case Dec => s.(count := s.count - 1, owed := s.owed + if s.count - 1 <= 1 then 1 else 0)
    case Notify => s.(owed := s.owed - 1, pc := if s.pc == Asleep then Woken else s.pc)
    case Lock => s.(pc := Holding)
    case Compare => s.(pc := if s.count == c.expected then Returned else Committed)
    case Sleep => s.(pc := Asleep)
    case SpuriousWakeup => s.(pc := Woken)
  }

  predicate Initial(c: Config, s: State) {
    s.pc == Outside && s.owed == 0 && s.count >= c.floor
  }

  ghost predicate Follows(c: Config, s: State, e: Event, s': State) {
    Enabled(c, s, e) && s' == Step(c, s, e)
  }

  ghost predicate Stepped(c: Config, s: State, s': State) {
    exists e :: Follows(c, s, e, s')
  }

  ghost predicate IsRun(c: Config, states: seq<State>) {
    states != [] && forall i :: 0 <= i < |states| - 1 ==> Stepped(c, states[i], states[i + 1])
  }

  ghost predicate Reaches(c: Config, s: State, s': State) {
    exists states: seq<State> :: IsRun(c, states) && states[0] == s && states[|states| - 1] == s'
  }

  /** The waiter sleeps although its count is there, and nobody will wake it. */
  predicate LostWakeup(c: Config, s: State) {
    s.pc == Asleep && s.count == c.expected && s.owed == 0
  }

  // -- Safe waits ----------------------------------------------------------------------------------

  /** What a caller can check: it waits for 0, or some registration outlasts the wait. */
  predicate Safe(c: Config) {
    c.expected == 0 || (c.expected == 1 && c.floor > 0)
  }

  predicate Inv(c: Config, s: State) {
    && s.count >= c.floor
    && ((s.pc == Committed || s.pc == Asleep) && s.count == c.expected ==> s.owed > 0)
  }

  lemma StepInv(c: Config, s: State, e: Event)
    requires Safe(c) && Inv(c, s) && Enabled(c, s, e)
    ensures Inv(c, Step(c, s, e))
  {
  }

  lemma {:induction false} RunInv(c: Config, states: seq<State>)
    requires Safe(c) && IsRun(c, states) && Inv(c, states[0])
    ensures Inv(c, states[|states| - 1])
  {
    if |states| > 1 {
      var front := states[..|states| - 1];
      RunInv(c, front);
      var s, s' := front[|front| - 1], states[|states| - 1];
      assert Stepped(c, s, s');
      var e :| Follows(c, s, e, s');
      StepInv(c, s, e);
    }
  }

  /** A wait returns only on a count that is equal to the expected one. */
  lemma {:induction false} ReturnsAtExpected(c: Config, states: seq<State>)
    requires IsRun(c, states) && states[0].pc != Returned && states[|states| - 1].pc == Returned
    ensures exists i :: 0 <= i < |states| && states[i].pc == Holding && states[i].count == c.expected
  {
    var front := states[..|states| - 1];
    if front != [] {
      var s, t := states[|states| - 2], states[|states| - 1];
      assert Stepped(c, states[|states| - 2], states[|states| - 2 + 1]);
      if s.pc == Returned {
        assert forall i :: 0 <= i < |front| - 1 ==> Stepped(c, states[i], states[i + 1]);
        ReturnsAtExpected(c, front);
        var i :| 0 <= i < |front| && front[i].pc == Holding && front[i].count == c.expected;
        assert states[i] == front[i];
      } else {
        var e :| Follows(c, s, e, t);
      }
    }
  }

  // -- The unsafe wait -------------------------------------------------------------------------------

  lemma ReachesItself(c: Config, s: State)
    ensures Reaches(c, s, s)
  {
    assert IsRun(c, [s]);
  }

  lemma ReachesNext(c: Config, s: State, s': State, e: Event)
    requires Reaches(c, s, s') && Enabled(c, s', e)
    ensures Reaches(c, s, Step(c, s', e))
  {
    var states: seq<State> :| IsRun(c, states) && states[0] == s && states[|states| - 1] == s';
    var next := Step(c, s', e);
    assert Follows(c, s', e, next);
    var longer := states + [next];
    forall i | 0 <= i < |longer| - 1 ensures Stepped(c, longer[i], longer[i + 1]) {
      if i < |states| - 1 {
        assert Stepped(c, states[i], states[i + 1]);
      }
    }
    assert longer[0] == s && longer[|longer| - 1] == next;
  }

  /** All actors can terminate and notify before the waiter takes the lock. */
  lemma {:induction false} Drain(c: Config, s: State, s': State)
    requires c.floor == 0 && Reaches(c, s, s') && s'.pc == Outside
    ensures Reaches(c, s, State(0, 0, Outside))
    decreases s'.count, s'.owed
  {
    if s'.count > 0 {
      ReachesNext(c, s, s', Dec);
      Drain(c, s, Step(c, s', Dec));
    } else if s'.owed > 0 {
      ReachesNext(c, s, s', Notify);
      Drain(c, s, Step(c, s', Notify));
    } else {
      assert s' == State(0, 0, Outside);
    }
  }

  lemma LostFromAnywhere(c: Config, s: State)
    requires c == Config(1, 0) && Initial(c, s)
    ensures Reaches(c, s, State(1, 0, Asleep))
  {
    ReachesItself(c, s);
    Drain(c, s, s);
    ReachesNext(c, s, State(0, 0, Outside), Lock);
    ReachesNext(c, s, State(0, 0, Holding), Compare);
    ReachesNext(c, s, State(0, 0, Committed), Sleep);
    ReachesNext(c, s, State(0, 0, Asleep), Inc);
  }

  /** From any initial state: a wakeup can be lost exactly if the wait is not safe. */
  lemma LostWakeupIff(c: Config, s: State)
    requires (c.expected == 0 || c.expected == 1) && Initial(c, s)
    ensures (exists s' :: Reaches(c, s, s') && LostWakeup(c, s')) <==> !Safe(c)
  {
    if Safe(c) {
      forall s' | Reaches(c, s, s') ensures !LostWakeup(c, s') {
        var states: seq<State> :| IsRun(c, states) && states[0] == s && states[|states| - 1] == s';
        RunInv(c, states);
      }
    } else {
      assert c == Config(1, 0);
      LostFromAnywhere(c, s);
      assert LostWakeup(c, State(1, 0, Asleep));
    }
  }

  // -- Safe waits return -------------------------------------------------------------------------------

  /** A step that leaves the count alone, or rest. No thread is obliged to wake up without a notification. */
  ghost predicate Settles(c: Config, s: State, s': State) {
    || (exists e :: e != Inc && e != Dec && Follows(c, s, e, s'))
    || (s' == s && forall e :: e != Inc && e != Dec && e != SpuriousWakeup ==> !Enabled(c, s, e))
  }

  function Rank(pc: Pc): (n: nat) {
    match pc
    case Committed => 4 case Asleep => 3 case Woken => 2 case Outside => 2 case Holding => 1 case Returned => 0
  }

  /** Once the count stays at the expected value, the waiter returns under every schedule. */
  lemma {:induction false} SafeWaitReturns(c: Config, trace: nat -> State, i: nat)
    requires Safe(c) && Inv(c, trace(i)) && trace(i).count == c.expected
    requires forall k: nat :: k >= i ==> Settles(c, trace(k), trace(k + 1))
    ensures exists k: nat :: k >= i && trace(k).pc == Returned && trace(k).count == c.expected
    decreases Rank(trace(i).pc), trace(i).owed
  {
    var s, s' := trace(i), trace(i + 1);
    if s.pc != Returned {
      assert Settles(c, s, s');
      assert Enabled(c, s, Notify) || Enabled(c, s, Lock) || Enabled(c, s, Compare) || Enabled(c, s, Sleep);
      var e :| e != Inc && e != Dec && Follows(c, s, e, s');
      StepInv(c, s, e);
      SafeWaitReturns(c, trace, i + 1);
    }
  }

  // -- The gauge --------------------------------------------------------------------------------------------

  /** The cast of the gauge's 64-bit value to size_t. */
  function SizeT(x: int): (n: nat) {
    x % 0x1_0000_0000_0000_0000
  }

  class ActorRegistry {
    var running: int  // stays within 64 bits

    constructor ()
      ensures running == 0
    {
      running := 0;
    }

    method IncRunning() returns (value: nat)
      modifies this
      ensures running == old(running) + 1 && value == SizeT(running)
      ensures forall c: Config, s: State :: s.count == old(running) && Enabled(c, s, Inc) ==>
        Step(c, s, Inc) == s.(count := running)
    {
      running := running + 1;
      value := SizeT(running);
    }

    /** `notify` tells that the caller goes on to lock and notify, as it owes in the protocol. */
    method DecRunning() returns (value: nat, notify: bool)
      requires -0x8000_0000_0000_0000 < running < 0x8000_0000_0000_0000
      modifies this
      ensures running == old(running) - 1 && value == SizeT(running)
      ensures notify <==> running == 0 || running == 1
      ensures forall c: Config, s: State :: s.count == old(running) && Enabled(c, s, Dec) ==>
        Step(c, s, Dec) == s.(count := running, owed := s.owed + if notify then 1 else 0)
    {
      running := running - 1;
      value := SizeT(running);
      notify := value <= 1;
    }
  }

  /** The registration of one actor, guarded by its flag. */
  class Registration {
    const registry: ActorRegistry
    var registered: bool

    constructor (registry: ActorRegistry)
      ensures this.registry == registry && !registered
    {
      this.registry, registered := registry, false;
    }

    function Share(): (n: int)
      reads this
    {
      if registered then 1 else 0
    }

    method RegisterAtSystem()
      modifies this, registry
      ensures registered && registry.running - Share() == old(registry.running - Share())
    {
      if registered {
        return;
      }
      registered := true;
      var _ := registry.IncRunning();
    }

    method UnregisterFromSystem() returns (notify: bool)
      requires -0x8000_0000_0000_0000 < registry.running < 0x8000_0000_0000_0000
      modifies this, registry
      ensures !registered && registry.running - Share() == old(registry.running - Share())
      ensures notify <==> old(registered) && (registry.running == 0 || registry.running == 1)
    {
      if !registered {
        return false;
      }
      registered := false;
      var _, n := registry.DecRunning();
      return n;
    }

    /** However often an actor is registered and unregistered, it counts once exactly while its flag is set. */
    method Repeat(calls: seq<bool>)
      requires -0x7fff_ffff_ffff_ffff < registry.running < 0x7fff_ffff_ffff_ffff
      modifies this, registry
      ensures registry.running - Share() == old(registry.running - Share())
      ensures calls != [] ==> registered == calls[|calls| - 1]
    {
      for i := 0 to |calls|
        invariant registry.running - Share() == old(registry.running - Share())
        invariant i > 0 ==> registered == calls[i - 1]
      {
        if calls[i] {
          RegisterAtSystem();
        } else {
          var _ := UnregisterFromSystem();
        }
      }
    }
  }
}
