/**
 Lifetime of an actor: the strong and weak reference counts of its control block.

 Any number of threads hold strong or weak handles and run the three functions of
 actor_control_block.cpp, split at their atomic operations. Threads are anonymous: a state says how
 many handles are held and how many threads stand at each point inside a function.
 */
module ControlBlock {
  import opened Basics

  datatype State = State(
    strong: nat, weak: nat,            // the two atomic counters
    terminated: bool,                  // is_terminated_flag of the actor
    dataDtors: nat, blockDtors: nat,   // completed calls of data_dtor and block_dtor
    strongHandles: nat, weakHandles: nat,
    upgrading: multiset<nat>,          // upgrade loops, by the count they have read
    atZero: nat,                       // release: the counter dropped to 0
    closing: nat,                      // release: not terminated, mailbox closed, about to bump
    cleaning: nat,                     // release: bumped, inside on_unreachable
    cleaned: nat,                      // release: about to take the bump back
    destroying: nat,                   // release: about to call data_dtor
    weakTest: nat,                     // release_weak: about to test weak_refs == 1
    weakSub: nat,                      // release_weak: about to call fetch_sub
    blockDestroying: nat)              // release_weak: about to call block_dtor

  /** A new actor: one strong reference, held by its creator, and the implicit weak one. */
  predicate Initial(s: State) {
    && s.strong == s.strongHandles == s.weak == 1 && s.weakHandles == 0 && s.upgrading == multiset{}
    && !s.terminated && s.dataDtors == s.blockDtors == 0
    && s.atZero == s.closing == s.cleaning == s.cleaned == s.destroying == 0
    && s.weakTest == s.weakSub == s.blockDestroying == 0
  }

  datatype Event =
    | AddRef | AddWeakRef | Terminate
    | UpgradeLoad | UpgradeCas(count: nat, spurious: bool)
    | Release | TestTerminated | Bump | CleanUp | Unbump | DataDtor
    | ReleaseWeak | WeakTest | WeakSub | BlockDtor

  predicate Enabled(s: State, e: Event)
  {
    match e
    case AddRef => s.strongHandles > 0 || s.cleaning > 0
    case AddWeakRef => s.strongHandles > 0 || s.weakHandles > 0 || s.cleaning > 0
    case Terminate => s.strongHandles > 0
    case UpgradeLoad => s.weakHandles > 0
    case UpgradeCas(count, _) => count in s.upgrading
    case Release => s.strongHandles > 0
    case TestTerminated => s.atZero > 0
    case Bump => s.closing > 0
    case CleanUp => s.cleaning > 0
    case Unbump => s.cleaned > 0
    case DataDtor => s.destroying > 0
    case ReleaseWeak => s.weakHandles > 0
    case WeakTest => s.weakTest > 0
    case WeakSub => s.weakSub > 0
    case BlockDtor => s.blockDestroying > 0
  }

  /** Unsigned decrement of an atomic counter. */
  function Dec(n: nat): (r: nat) {
    if n == 0 then 0xffff_ffff_ffff_ffff else n - 1
  }

  function Step(s: State, e: Event): (s': State)
    requires Enabled(s, e)
  {
    match e
    case AddRef => s.(strong := s.strong + 1, strongHandles := s.strongHandles + 1)
    case AddWeakRef => s.(weak := s.weak + 1, weakHandles := s.weakHandles + 1)
    case Terminate => s.(terminated := true)
    case UpgradeLoad =>  // the thread keeps its weak handle while it loops
      if s.strong == 0 then s
      else s.(weakHandles := s.weakHandles - 1, upgrading := s.upgrading + multiset{s.strong})
    case UpgradeCas(count, spurious) =>
      var others := s.upgrading - multiset{count};
      if s.strong == count && !spurious then
        s.(strong := s.strong + 1, strongHandles := s.strongHandles + 1,
           weakHandles := s.weakHandles + 1, upgrading := others)
      else if s.strong == 0 then s.(weakHandles := s.weakHandles + 1, upgrading := others)
      else s.(upgrading := others + multiset{s.strong})
    case Release =>
      s.(strong := Dec(s.strong), strongHandles := s.strongHandles - 1,
         atZero := s.atZero + if s.strong == 1 then 1 else 0)
    case TestTerminated =>
      if s.terminated then s.(atZero := s.atZero - 1, destroying := s.destroying + 1)
      else s.(atZero := s.atZero - 1, closing := s.closing + 1)
    case Bump => s.(strong := s.strong + 1, closing := s.closing - 1, cleaning := s.cleaning + 1)
    case CleanUp => s.(terminated := true, cleaning := s.cleaning - 1, cleaned := s.cleaned + 1)
    case Unbump =>
      s.(strong := Dec(s.strong), cleaned := s.cleaned - 1,
         destroying := s.destroying + if s.strong == 1 then 1 else 0)
    case DataDtor =>  // and release the implicit weak reference
      s.(dataDtors := s.dataDtors + 1, destroying := s.destroying - 1, weakTest := s.weakTest + 1)
    case ReleaseWeak => s.(weakHandles := s.weakHandles - 1, weakTest := s.weakTest + 1)
    case WeakTest =>
      if s.weak == 1 then s.(weakTest := s.weakTest - 1, blockDestroying := s.blockDestroying + 1)
      else s.(weakTest := s.weakTest - 1, weakSub := s.weakSub + 1)
    case WeakSub =>
      s.(weak := Dec(s.weak), weakSub := s.weakSub - 1,
         blockDestroying := s.blockDestroying + if s.weak == 1 then 1 else 0)
    case BlockDtor => s.(blockDestroying := s.blockDestroying - 1, blockDtors := s.blockDtors + 1)
  }

  ghost predicate Next(s: State, t: State) {
    exists e :: Enabled(s, e) && Step(s, e) == t
  }

  ghost predicate Stepped(run: seq<State>, i: nat)
    requires i + 1 < |run|
  {
    Next(run[i], run[i + 1])
  }

  /** The states of one interleaved execution. */
  ghost predicate Run(run: seq<State>) {
    run != [] && Initial(run[0]) && forall i :: 0 <= i < |run| - 1 ==> Stepped(run, i)
  }

  // -- Ownership ------------------------------------------------------------------

  /** Threads that are somewhere in the last part of a release, after the counter dropped to 0. */
  function Last(s: State): nat {
    s.atZero + s.closing + s.cleaning + s.cleaned + s.destroying
  }

  /** The strong counter counts the held handles and the temporary bump. */
  ghost predicate StrongInv(s: State)
  {
    && s.strong == s.strongHandles + s.cleaning + s.cleaned
    && Last(s) <= 1 && s.dataDtors <= 1
    && (s.atZero + s.closing + s.destroying > 0 ==> s.strong == 0 && s.dataDtors == 0)
    && (s.dataDtors == 0 ==> s.strong > 0 || s.atZero + s.closing + s.destroying > 0)
    && (s.dataDtors == 1 ==> s.strong == 0 && Last(s) == 0 && s.terminated)
    && (s.closing > 0 ==> !s.terminated)
    && (s.cleaned + s.destroying > 0 ==> s.terminated)
    && (forall c :: c in s.upgrading ==> c > 0)
  }

  /** Everything the weak counter stands for: handles, releases under way, and the living data. */
  function WeakOwners(s: State): nat {
    s.weakHandles + |s.upgrading| + s.weakTest + s.weakSub + if s.dataDtors == 0 then 1 else 0
  }

  ghost predicate WeakInv(s: State)
  {
    && s.blockDestroying + s.blockDtors <= 1
    && (s.blockDestroying + s.blockDtors == 0 ==> s.weak == WeakOwners(s) > 0)
    && (s.blockDestroying + s.blockDtors == 1 ==> WeakOwners(s) == 0)
  }

  /** The events of a thread in the last part of a release. */
  predicate IsLast(e: Event) {
    e in {TestTerminated, Bump, CleanUp, Unbump, DataDtor}
  }

  lemma StepStrongLast(s: State, e: Event)
    requires StrongInv(s) && Enabled(s, e) && IsLast(e)
    ensures StrongInv(Step(s, e))
  {
  }

  lemma StepStrongUpgrade(s: State, e: Event)
    requires StrongInv(s) && Enabled(s, e) && (e == UpgradeLoad || e.UpgradeCas?)
    ensures StrongInv(Step(s, e))
  {
  }

  lemma StepStrongOther(s: State, e: Event)
    requires StrongInv(s) && Enabled(s, e) && !IsLast(e) && e != UpgradeLoad && !e.UpgradeCas?
    ensures StrongInv(Step(s, e))
  {
  }

  lemma StepStrong(s: State, e: Event)
    requires StrongInv(s) && Enabled(s, e)
    ensures StrongInv(Step(s, e))
  {
    if IsLast(e) {
      StepStrongLast(s, e);
    } else if e == UpgradeLoad || e.UpgradeCas? {
      StepStrongUpgrade(s, e);
    } else {
      StepStrongOther(s, e);
    }
  }

  lemma StepWeak(s: State, e: Event)
    requires StrongInv(s) && WeakInv(s) && Enabled(s, e)
    ensures WeakInv(Step(s, e))
  {
    if e.UpgradeCas? {
      assert s.upgrading == (s.upgrading - multiset{e.count}) + multiset{e.count};
    }
  }

  ghost predicate Inv(s: State) {
    StrongInv(s) && WeakInv(s)
  }

  lemma StepInv(s: State, e: Event)
    requires Inv(s) && Enabled(s, e)
    ensures Inv(Step(s, e))
  {
    StepStrong(s, e);
    StepWeak(s, e);
  }

  lemma NextInv(s: State, t: State)
    requires Inv(s) && Next(s, t)
    ensures Inv(t)
  {
    var e :| Enabled(s, e) && Step(s, e) == t;
    StepInv(s, e);
  }

  lemma InitialInv(s: State)
    requires Initial(s)
    ensures Inv(s)
  {
  }

  lemma {:induction false} RunInv(run: seq<State>, k: nat)
    requires Run(run) && k < |run|
    ensures Inv(run[k])
  {
    if k == 0 {
      InitialInv(run[0]);
    } else {
      RunInv(run, k - 1);
      assert Stepped(run, k - 1);
      NextInv(run[k - 1], run[k]);
    }
  }

  /** s occurs in some execution. */
  ghost predicate Reachable(s: State) {
    exists run :: Run(run) && run[|run| - 1] == s
  }

  lemma ReachableInv(s: State)
    requires Reachable(s)
    ensures Inv(s)
  {
    var run :| Run(run) && run[|run| - 1] == s;
    RunInv(run, |run| - 1);
  }

  // -- What every run keeps ---------------------------------------------------------

  /** data_dtor runs at most once, on a terminated actor nobody references or touches any more. */
  lemma DataDestroyedOnce(s: State)
    requires Reachable(s)
    ensures s.dataDtors <= 1
    ensures s.destroying > 0 || s.dataDtors == 1 ==> s.terminated && s.strongHandles == 0 && s.strong == 0
    ensures s.destroying > 0 ==> s.dataDtors == 0
    ensures s.dataDtors == 1 ==> s.atZero + s.closing + s.cleaning + s.cleaned + s.destroying == 0
    ensures s.dataDtors == 0 && s.strongHandles == 0 ==>
              s.atZero + s.closing + s.cleaning + s.cleaned + s.destroying == 1
  {
    ReachableInv(s);
  }

  /** block_dtor runs at most once and last: afterwards no thread can take any step on the block. */
  lemma BlockDestroyedLast(s: State)
    requires Reachable(s)
    ensures s.blockDtors <= 1
    ensures s.blockDestroying > 0 ==>
              && s.blockDtors == 0 && s.dataDtors == 1
              && forall e :: Enabled(s, e) ==> e == BlockDtor
    ensures s.blockDtors == 1 ==> s.dataDtors == 1 && forall e :: !Enabled(s, e)
  {
    ReachableInv(s);
    if s.blockDestroying + s.blockDtors == 1 {
      assert |s.upgrading| == 0;
      assert s.upgrading == multiset{};
    }
  }

  /** No upgrade succeeds once the data is being destroyed, also not by a loop that read the old count. */
  lemma NoUpgradeAfterDestruction(s: State, e: Event)
    requires Reachable(s) && (s.destroying > 0 || s.dataDtors == 1)
    requires Enabled(s, e) && (e == UpgradeLoad || e.UpgradeCas?)
    ensures Step(s, e).strong == 0 == Step(s, e).strongHandles
    ensures e == UpgradeLoad ==> Step(s, e) == s
  {
    ReachableInv(s);
  }

  /** An upgrade that succeeds hands out a live actor, even during the temporary resurrection. */
  lemma UpgradeIsSafe(s: State, e: Event)
    requires Reachable(s) && Enabled(s, e)
    requires e.UpgradeCas? && Step(s, e).strongHandles > s.strongHandles
    ensures s.dataDtors == 0 == s.destroying == s.atZero == s.closing
    ensures Step(s, e).strong >= 2
  {
    ReachableInv(s);
  }

  /** An upgrade of a living actor that nobody disturbs adds one strong handle. */
  lemma UndisturbedUpgradeSucceeds(s: State)
    requires Reachable(s) && s.weakHandles > 0 && s.strong > 0
    ensures Enabled(s, UpgradeLoad)
    ensures var t := Step(s, UpgradeLoad);
            && Enabled(t, UpgradeCas(s.strong, false))
            && Step(t, UpgradeCas(s.strong, false)) == s.(strong := s.strong + 1, strongHandles := s.strongHandles + 1)
  {
    var t := Step(s, UpgradeLoad);
    assert s.upgrading + multiset{s.strong} - multiset{s.strong} == s.upgrading;
  }

  /** A loop gives up only at count zero, and its exchange succeeds exactly if the count is as loaded. */
  lemma UpgradeOutcome(s: State, count: nat, spurious: bool)
    requires Reachable(s) && Enabled(s, UpgradeCas(count, spurious))
    ensures var t := Step(s, UpgradeCas(count, spurious));
            && (t.strongHandles == s.strongHandles + 1 <==> s.strong == count && !spurious)
            && (t.weakHandles == s.weakHandles + 1 && t.strongHandles == s.strongHandles ==> s.strong == 0)
  {
    ReachableInv(s);
  }

  /** Nobody holds a handle and nobody is inside one of the functions. */
  ghost predicate Quiet(s: State) {
    forall e :: !Enabled(s, e)
  }

  /** Once all handles are released and all functions have returned, both destructors have run. */
  lemma EverythingDestroyedInTheEnd(s: State)
    requires Reachable(s)
    ensures Quiet(s) <==> s.dataDtors == 1 && s.blockDtors == 1
  {
    ReachableInv(s);
    if Quiet(s) {
      assert !Enabled(s, Release) && !Enabled(s, TestTerminated) && !Enabled(s, Bump) && !Enabled(s, CleanUp);
      assert !Enabled(s, Unbump) && !Enabled(s, DataDtor) && !Enabled(s, ReleaseWeak);
      assert !Enabled(s, WeakTest) && !Enabled(s, WeakSub) && !Enabled(s, BlockDtor);
      forall c
        ensures c !in s.upgrading
      {
        assert !Enabled(s, UpgradeCas(c, false));
      }
      assert |s.upgrading| == 0;
    }
    if s.blockDtors == 1 {
      BlockDestroyedLast(s);
    }
  }

  // -- Every schedule of releases ends with both destructors ----------------------------

  /** Events that make no new reference and try to make none. */
  predicate Releases(e: Event) {
    e !in {AddRef, AddWeakRef, Terminate, UpgradeLoad} && !e.UpgradeCas?
  }

  ghost predicate ReleaseStep(s: State, t: State) {
    exists e :: Releases(e) && Enabled(s, e) && Step(s, e) == t
  }

  ghost predicate NoRelease(s: State) {
    forall e :: Releases(e) ==> !Enabled(s, e)
  }

  /** Some thread goes on with a release, or no thread can. */
  ghost predicate Drains(s: State, t: State) {
    ReleaseStep(s, t) || (t == s && NoRelease(s))
  }

  /** How many steps the releases can still take, from above. */
  function Remaining(s: State): (n: nat) {
    11 * s.strongHandles + 9 * s.atZero + 8 * s.closing + 7 * s.cleaning + 6 * s.cleaned + 5 * s.destroying
    + 4 * s.weakHandles + 3 * s.weakTest + 2 * s.weakSub + s.blockDestroying
  }

  lemma ReleaseRanks(s: State, e: Event)
    requires Inv(s) && Releases(e) && Enabled(s, e)
    ensures Remaining(Step(s, e)) < Remaining(s) && Step(s, e).upgrading == s.upgrading
  {
  }

  lemma ReleaseStepRanks(s: State, t: State)
    requires Inv(s) && ReleaseStep(s, t)
    ensures Inv(t) && Remaining(t) < Remaining(s) && t.upgrading == s.upgrading
  {
    var e :| Releases(e) && Enabled(s, e) && Step(s, e) == t;
    StepInv(s, e);
    ReleaseRanks(s, e);
  }

  lemma StuckMeansDestroyed(s: State)
    requires Inv(s) && s.upgrading == multiset{} && NoRelease(s)
    ensures s.dataDtors == 1 && s.blockDtors == 1
  {
    assert !Enabled(s, Release) && !Enabled(s, TestTerminated) && !Enabled(s, Bump) && !Enabled(s, CleanUp);
    assert !Enabled(s, Unbump) && !Enabled(s, DataDtor) && !Enabled(s, ReleaseWeak);
    assert !Enabled(s, WeakTest) && !Enabled(s, WeakSub) && !Enabled(s, BlockDtor);
  }

  /**
   Once no thread makes new references, both destructors run under every schedule of the releases,
   however many handles are left and wherever threads stand inside them.
   */
  lemma {:induction false} ReleasesDestroy(trace: nat -> State, i: nat)
    requires Inv(trace(i)) && trace(i).upgrading == multiset{}
    requires forall k: nat :: k >= i ==> Drains(trace(k), trace(k + 1))
    ensures exists k: nat :: k >= i && trace(k).dataDtors == 1 && trace(k).blockDtors == 1
    decreases Remaining(trace(i))
  {
    var s, t := trace(i), trace(i + 1);
    assert Drains(s, t);
    if NoRelease(s) {
      StuckMeansDestroyed(s);
    } else {
      ReleaseStepRanks(s, t);
      ReleasesDestroy(trace, i + 1);
    }
  }

  // -- One thread among others ---------------------------------------------------------

  /** Where the thread that runs one of the three functions stands. */
  datatype Pc =
    | HoldsStrong | Dropped | Closing | Cleaning | Cleaned | Destroying
    | HoldsWeak | TestingWeak | SubtractingWeak | DestroyingBlock
    | Upgrading(count: nat) | Done(ok: bool)

  /** The thread, and the counters with everything that other threads hold and do. */
  datatype Config = Config(rest: State, pc: Pc)

  /** Handles and threads at program points, to be added to a state. */
  datatype Tokens = Tokens(
    strongHandles: nat, weakHandles: nat, upgrading: multiset<nat>, atZero: nat, closing: nat, cleaning: nat,
    cleaned: nat, destroying: nat, weakTest: nat, weakSub: nat, blockDestroying: nat)

  function TokenOf(pc: Pc): (d: Tokens) {
    var none := Tokens(0, 0, multiset{}, 0, 0, 0, 0, 0, 0, 0, 0);
    match pc
    case HoldsStrong => none.(strongHandles := 1)
    case Dropped => none.(atZero := 1)
    case Closing => none.(closing := 1)
    case Cleaning => none.(cleaning := 1)
    case Cleaned => none.(cleaned := 1)
    case Destroying => none.(destroying := 1)
    case HoldsWeak => none.(weakHandles := 1)
    case TestingWeak => none.(weakTest := 1)
    case SubtractingWeak => none.(weakSub := 1)
    case DestroyingBlock => none.(blockDestroying := 1)
    case Upgrading(count) => none.(upgrading := multiset{count})
    case Done(_) => none
  }

  function Plus(s: State, d: Tokens): (t: State) {
    State(s.strong, s.weak, s.terminated, s.dataDtors, s.blockDtors,
          s.strongHandles + d.strongHandles, s.weakHandles + d.weakHandles, s.upgrading + d.upgrading,
          s.atZero + d.atZero, s.closing + d.closing, s.cleaning + d.cleaning, s.cleaned + d.cleaned,
          s.destroying + d.destroying, s.weakTest + d.weakTest, s.weakSub + d.weakSub,
          s.blockDestroying + d.blockDestroying)
  }

  /** The state of the protocol: the thread is one of the anonymous ones. */
  function Full(c: Config): (s: State) {
    var s := c.rest;
    match c.pc
    case HoldsStrong => s.(strongHandles := s.strongHandles + 1)
    case Dropped => s.(atZero := s.atZero + 1)
    case Closing => s.(closing := s.closing + 1)
    case Cleaning => s.(cleaning := s.cleaning + 1)
    case Cleaned => s.(cleaned := s.cleaned + 1)
    case Destroying => s.(destroying := s.destroying + 1)
    case HoldsWeak => s.(weakHandles := s.weakHandles + 1)
    case TestingWeak => s.(weakTest := s.weakTest + 1)
    case SubtractingWeak => s.(weakSub := s.weakSub + 1)
    case DestroyingBlock => s.(blockDestroying := s.blockDestroying + 1)
    case Upgrading(count) => s.(upgrading := s.upgrading + multiset{count})
    case Done(_) => s
  }

  lemma FullIsPlus(c: Config)
    ensures Full(c) == Plus(c.rest, TokenOf(c.pc))
  {
    assert c.rest.upgrading + multiset{} == c.rest.upgrading;
    match c.pc
    case HoldsStrong =>
    case Dropped =>
    case Closing =>
    case Cleaning =>
    case Cleaned =>
    case Destroying =>
    case HoldsWeak =>
    case TestingWeak =>
    case SubtractingWeak =>
    case DestroyingBlock =>
    case Upgrading(_) =>
    case Done(_) =>
  }

  /** What another thread may do: not what only this thread can. The cleanup itself may hand out references. */
  predicate Foreign(c: Config, e: Event) {
    Enabled(c.rest, e) || (c.pc == Cleaning && (e == AddRef || e == AddWeakRef))
  }

  function ForeignStep(c: Config, e: Event): (c': Config)
    requires Foreign(c, e)
  {
    Config(GrantedStep(c.rest, e), c.pc)
  }

  /** A step that another thread takes with its own handle, or with one that the cleanup grants. */
  function GrantedStep(s: State, e: Event): (t: State)
    requires Enabled(s, e) || e == AddRef || e == AddWeakRef
  {
    match e
    case AddRef => s.(strong := s.strong + 1, strongHandles := s.strongHandles + 1)
    case AddWeakRef => s.(weak := s.weak + 1, weakHandles := s.weakHandles + 1)
    case _ => Step(s, e)
  }

  /** The next event of this thread in a release (weak or strong) or in an upgrade. */
  function OwnEvent(pc: Pc, upgrade: bool, spurious: bool): (e: Event)
    requires !pc.Done?
  {
    match pc
    case HoldsStrong => Event.Release
    case Dropped => TestTerminated
    case Closing => Bump
    case Cleaning => CleanUp
    case Cleaned => Unbump
    case Destroying => DataDtor
    case HoldsWeak => if upgrade then UpgradeLoad else Event.ReleaseWeak
    case TestingWeak => WeakTest
    case SubtractingWeak => WeakSub
    case DestroyingBlock => BlockDtor
    case Upgrading(count) => UpgradeCas(count, spurious)
  }

  /** The thread takes its next step: the protocol moves with it, and nobody else does. */
  ghost predicate OwnStepBy(c: Config, c': Config, upgrade: bool, spurious: bool) {
    && !c.pc.Done? && !c'.pc.HoldsStrong? && !c'.pc.HoldsWeak?
    && Enabled(Full(c), OwnEvent(c.pc, upgrade, spurious))
    && Full(c') == Step(Full(c), OwnEvent(c.pc, upgrade, spurious))
    && SameOthers(c.rest, c'.rest, c'.pc)
    && (c'.pc.Done? && upgrade ==> (c'.pc.ok <==> c'.rest.strong > c.rest.strong))
  }

  /** The handles and program points of other threads are as before, but for handles that the thread returns. */
  ghost predicate SameOthers(s: State, t: State, pc: Pc) {
    && t.upgrading == s.upgrading && t.atZero == s.atZero && t.closing == s.closing && t.cleaning == s.cleaning
    && t.cleaned == s.cleaned && t.destroying == s.destroying && t.weakTest == s.weakTest && t.weakSub == s.weakSub
    && t.blockDestroying == s.blockDestroying
    && (!pc.Done? ==> t.strongHandles == s.strongHandles && t.weakHandles == s.weakHandles)
  }

  ghost predicate ConfigStep(c: Config, c': Config, upgrade: bool) {
    || (exists e :: Foreign(c, e) && c' == ForeignStep(c, e))
    || (exists spurious :: OwnStepBy(c, c', upgrade, spurious))
  }

  ghost predicate SameStep(s: State, d: Tokens, e: Event)
    requires Enabled(s, e)
  {
    Enabled(Plus(s, d), e) && Plus(Step(s, e), d) == Step(Plus(s, d), e)
  }

  lemma PlusLast(s: State, d: Tokens, e: Event)
    requires Enabled(s, e) && IsLast(e)
    ensures SameStep(s, d, e)
  {
  }

  lemma Regroup(u: multiset<nat>, d: multiset<nat>, count: nat, more: nat)
    ensures u + d + multiset{more} == (u + multiset{more}) + d
    ensures count in u ==> u + d - multiset{count} == (u - multiset{count}) + d
    ensures count in u ==> u + d - multiset{count} + multiset{more} == (u - multiset{count} + multiset{more}) + d
  {
  }

  lemma PlusLoad(s: State, d: Tokens, e: Event)
    requires Enabled(s, e) && e == UpgradeLoad
    ensures SameStep(s, d, e)
  {
    Regroup(s.upgrading, d.upgrading, 0, s.strong);
  }

  lemma PlusCasWins(s: State, d: Tokens, e: Event)
    requires Enabled(s, e) && e.UpgradeCas? && s.strong == e.count && !e.spurious
    ensures SameStep(s, d, e)
  {
    Regroup(s.upgrading, d.upgrading, e.count, s.strong);
  }

  lemma PlusCasGivesUp(s: State, d: Tokens, e: Event)
    requires Enabled(s, e) && e.UpgradeCas? && (s.strong != e.count || e.spurious) && s.strong == 0
    ensures SameStep(s, d, e)
  {
    Regroup(s.upgrading, d.upgrading, e.count, s.strong);
  }

  lemma PlusCasGoesOn(s: State, d: Tokens, e: Event)
    requires Enabled(s, e) && e.UpgradeCas? && (s.strong != e.count || e.spurious) && s.strong != 0
    ensures SameStep(s, d, e)
  {
    Regroup(s.upgrading, d.upgrading, e.count, s.strong);
    var p := Plus(s, d);
    var t, q := Step(s, e), Step(p, e);
    assert t.upgrading == s.upgrading - multiset{e.count} + multiset{s.strong};
    assert q.upgrading == p.upgrading - multiset{e.count} + multiset{s.strong};
  }

  lemma PlusOther(s: State, d: Tokens, e: Event)
    requires Enabled(s, e) && !IsLast(e) && e != UpgradeLoad && !e.UpgradeCas?
    ensures SameStep(s, d, e)
  {
  }

  /** A step of another thread is the same step of the protocol. */
  lemma ForeignIsStep(c: Config, e: Event)
    requires Foreign(c, e)
    ensures Enabled(Full(c), e) && Full(ForeignStep(c, e)) == Step(Full(c), e)
  {
    FullIsPlus(c);
    FullIsPlus(ForeignStep(c, e));
    var d := TokenOf(c.pc);
    if e == AddRef || e == AddWeakRef {
      assert c.pc == Cleaning ==> d.cleaning == 1;
    } else if IsLast(e) {
      PlusLast(c.rest, d, e);
    } else if e == UpgradeLoad {
      PlusLoad(c.rest, d, e);
    } else if e.UpgradeCas? {
      if c.rest.strong == e.count && !e.spurious {
        PlusCasWins(c.rest, d, e);
      } else if c.rest.strong == 0 {
        PlusCasGivesUp(c.rest, d, e);
      } else {
        PlusCasGoesOn(c.rest, d, e);
      }
    } else {
      PlusOther(c.rest, d, e);
    }
  }

  lemma ConfigStepIsNext(c: Config, c': Config, upgrade: bool)
    requires ConfigStep(c, c', upgrade)
    ensures Next(Full(c), Full(c'))
  {
    if e :| Foreign(c, e) && c' == ForeignStep(c, e) {
      ForeignIsStep(c, e);
    }
  }

  ghost predicate Moved(path: seq<Config>, i: nat, upgrade: bool)
    requires i + 1 < |path|
  {
    ConfigStep(path[i], path[i + 1], upgrade)
  }

  /** From c to c' by steps of this thread and of others in between. */
  ghost predicate Path(path: seq<Config>, c: Config, c': Config, upgrade: bool) {
    && path != [] && path[0] == c && path[|path| - 1] == c'
    && forall i :: 0 <= i < |path| - 1 ==> Moved(path, i, upgrade)
  }

  lemma PathExtends(path: seq<Config>, start: Config, c: Config, c': Config, upgrade: bool)
    requires Path(path, start, c, upgrade) && ConfigStep(c, c', upgrade)
    ensures Path(path + [c'], start, c', upgrade)
  {
    var longer := path + [c'];
    forall i | 0 <= i < |longer| - 1 ensures Moved(longer, i, upgrade) {
      if i < |path| - 1 {
        assert Moved(path, i, upgrade);
      }
    }
  }

  lemma PathOwn(path: seq<Config>, start: Config, c: Config, c': Config, upgrade: bool, spurious: bool)
    requires Path(path, start, c, upgrade) && OwnStepBy(c, c', upgrade, spurious)
    ensures Path(path + [c'], start, c', upgrade)
  {
    PathExtends(path, start, c, c', upgrade);
  }

  lemma NextReachable(s: State, t: State)
    requires Reachable(s) && Next(s, t)
    ensures Reachable(t)
  {
    var run :| Run(run) && run[|run| - 1] == s;
    var longer := run + [t];
    forall i | 0 <= i < |longer| - 1 ensures Stepped(longer, i) {
      if i < |run| - 1 {
        assert Stepped(run, i);
      }
    }
    assert Run(longer) && longer[|longer| - 1] == t;
  }

  /** Every call of a function, with whatever happens around it, is a stretch of a run of the protocol. */
  lemma {:induction false} PathReachable(path: seq<Config>, c: Config, c': Config, upgrade: bool)
    requires Path(path, c, c', upgrade) && Reachable(Full(c))
    ensures Reachable(Full(c'))
    decreases |path|
  {
    if |path| > 1 {
      var front := path[..|path| - 1];
      var mid := front[|front| - 1];
      forall i | 0 <= i < |front| - 1 ensures Moved(front, i, upgrade) {
        assert Moved(path, i, upgrade);
      }
      PathReachable(front, c, mid, upgrade);
      assert Moved(path, |path| - 2, upgrade);
      ConfigStepIsNext(mid, c', upgrade);
      NextReachable(Full(mid), Full(c'));
    }
  }

  lemma GivesUp(s: State, count: nat, spurious: bool)
    requires s.strong == 0 && (count != 0 || spurious)
    ensures OwnStepBy(Config(s, Upgrading(count)), Config(s.(weakHandles := s.weakHandles + 1), Done(false)), true, spurious)
  {
    assert s.upgrading + multiset{count} - multiset{count} == s.upgrading;
  }

  lemma GoesOn(s: State, count: nat, spurious: bool)
    requires s.strong != 0 && (s.strong != count || spurious)
    ensures OwnStepBy(Config(s, Upgrading(count)), Config(s, Upgrading(s.strong)), true, spurious)
  {
    assert s.upgrading + multiset{count} - multiset{count} == s.upgrading;
  }

  // -- The three functions ---------------------------------------------------------------

  /** One weak reference less; the last one takes the block with it and leaves the counter alone. */
  function WithoutWeak(s: State): (t: State) {
    if s.weak == 1 then s.(blockDtors := s.blockDtors + 1) else s.(weak := Dec(s.weak))
  }

  /** The actor has cleaned up, its data is destroyed and the implicit weak reference is released. */
  function Destroyed(s: State): (t: State) {
    WithoutWeak(s.(terminated := true, dataDtors := s.dataDtors + 1))
  }

  /**
   The control block as one thread sees it. `world` lists what other threads do before each of its
   atomic operations; the caller's own handle is not part of `s` during a call.
   */
  class Block {
    var s: State

    constructor ()
      ensures Initial(Full(Config(s, HoldsStrong)))
    {
      s := State(1, 1, false, 0, 0, 0, 0, multiset{}, 0, 0, 0, 0, 0, 0, 0, 0);
    }

    /** Other threads take the given steps, as far as they can. */
    method Interfere(pc: Pc, es: seq<Event>, ghost start: Config, ghost before: seq<Config>, ghost upgrade: bool)
      returns (ghost path: seq<Config>)
      requires Path(before, start, Config(s, pc), upgrade)
      modifies this
      ensures Path(path, start, Config(s, pc), upgrade) && (es == [] ==> s == old(s))
    {
      path := before;
      for i := 0 to |es|
        invariant Path(path, start, Config(s, pc), upgrade) && (i == 0 ==> s == old(s))
      {
        var c := Config(s, pc);
        if Foreign(c, es[i]) {
          var c' := ForeignStep(c, es[i]);
          PathExtends(path, start, c, c', upgrade);
          path := path + [c'];
          s := c'.rest;
        }
      }
    }

    /** The compare-exchange loop; an attempt may fail without a reason (`spurious`). */
    method UpgradeWeak(world: seq<seq<Event>>, spurious: seq<bool>) returns (ok: bool, ghost path: seq<Config>)
      modifies this
      ensures Path(path, Config(old(s), HoldsWeak), Config(s, Done(ok)), true)
      ensures !ok ==> exists i :: 0 <= i < |path| && path[i].rest.strong == 0
      ensures world == [] && spurious == [] ==> (ok <==> old(s).strong > 0)
      ensures world == [] && spurious == [] ==>
                s == if ok then old(s).(strong := old(s).strong + 1, strongHandles := old(s).strongHandles + 1,
                                        weakHandles := old(s).weakHandles + 1)
                     else old(s).(weakHandles := old(s).weakHandles + 1)
    {
      ghost var start := Config(s, HoldsWeak);
      path := Interfere(HoldsWeak, Nth(world, 0), start, [start], true);
      var count, k := s.strong, 0;
      ghost var c := Config(s, HoldsWeak);
      if count == 0 {
        s := s.(weakHandles := s.weakHandles + 1);
        PathOwn(path, start, c, Config(s, Done(false)), true, false);
        return false, path + [Config(s, Done(false))];
      }
      PathOwn(path, start, c, Config(s, Upgrading(count)), true, false);
      path := path + [Config(s, Upgrading(count))];
      while count != 0
        invariant count != 0 ==> Path(path, start, Config(s, Upgrading(count)), true)
        invariant count == 0 ==> Path(path, start, Config(s, Done(false)), true) && s.strong == 0
        invariant world == [] && spurious == [] ==> s == old(s) && count == s.strong > 0
        decreases |world| + |spurious| - k, if count == 0 then 0 else if count == s.strong then 1 else 2
      {
        var fails := k < |spurious| && spurious[k];
        if k < |world| + |spurious| {
          k := k + 1;
          path := Interfere(Upgrading(count), Nth(world, k), start, path, true);
        }
        if s.strong == count && !fails {
          path := Exchange(count, start, path);
          return true, path;
        }
        path := Reload(count, fails, start, path);
        count := s.strong;
      }
      ok := false;
    }

    /** The exchange that succeeds. */
    method Exchange(count: nat, ghost start: Config, ghost before: seq<Config>) returns (ghost path: seq<Config>)
      requires Path(before, start, Config(s, Upgrading(count)), true) && s.strong == count
      modifies this
      ensures Path(path, start, Config(s, Done(true)), true)
      ensures s == old(s).(strong := old(s).strong + 1, strongHandles := old(s).strongHandles + 1,
                           weakHandles := old(s).weakHandles + 1)
    {
      ghost var c := Config(s, Upgrading(count));
      assert s.upgrading + multiset{count} - multiset{count} == s.upgrading;
      s := s.(strong := count + 1, strongHandles := s.strongHandles + 1, weakHandles := s.weakHandles + 1);
      PathOwn(before, start, c, Config(s, Done(true)), true, false);
      path := before + [Config(s, Done(true))];
    }

    /** The exchange that fails and loads the counter again. */
    method Reload(count: nat, spurious: bool, ghost start: Config, ghost before: seq<Config>) returns (ghost path: seq<Config>)
      requires Path(before, start, Config(s, Upgrading(count)), true) && (s.strong != count || spurious)
      modifies this
      ensures s.strong == old(s).strong
      ensures Path(path, start, Config(s, if s.strong == 0 then Done(false) else Upgrading(s.strong)), true)
    {
      ghost var c := Config(s, Upgrading(count));
      if s.strong == 0 {
        GivesUp(s, count, spurious);
        s := s.(weakHandles := s.weakHandles + 1);
      } else {
        GoesOn(s, count, spurious);
      }
      ghost var c' := Config(s, if s.strong == 0 then Done(false) else Upgrading(s.strong));
      PathOwn(before, start, c, c', true, spurious);
      path := before + [c'];
    }

    /** intrusive_ptr_release_weak, for a handle or for the implicit weak reference. */
    method DropWeak(world: seq<seq<Event>>, ghost start: Config, ghost before: seq<Config>) returns (ghost path: seq<Config>)
      requires Path(before, start, Config(s, TestingWeak), false)
      modifies this
      ensures Path(path, start, Config(s, Done(true)), false)
      ensures world == [] ==> s == WithoutWeak(old(s))
    {
      path := Interfere(TestingWeak, Nth(world, 0), start, before, false);
      ghost var c := Config(s, TestingWeak);
      var last := s.weak == 1;
      if !last {
        PathOwn(path, start, c, Config(s, SubtractingWeak), false, false);
        path := Interfere(SubtractingWeak, Nth(world, 1), start, path + [Config(s, SubtractingWeak)], false);
        c := Config(s, SubtractingWeak);
        last := s.weak == 1;
        s := s.(weak := Dec(s.weak));
      }
      ghost var c' := Config(s, if last then DestroyingBlock else Done(true));
      PathOwn(path, start, c, c', false, false);
      path := path + [c'];
      if last {
        path := DestroyBlock(Nth(world, 2), start, path);
      }
    }

    method DestroyBlock(es: seq<Event>, ghost start: Config, ghost before: seq<Config>) returns (ghost path: seq<Config>)
      requires Path(before, start, Config(s, DestroyingBlock), false)
      modifies this
      ensures Path(path, start, Config(s, Done(true)), false)
      ensures es == [] ==> s == old(s).(blockDtors := old(s).blockDtors + 1)
    {
      path := Interfere(DestroyingBlock, es, start, before, false);
      ghost var c := Config(s, DestroyingBlock);
      s := s.(blockDtors := s.blockDtors + 1);
      PathOwn(path, start, c, Config(s, Done(true)), false, false);
      path := path + [Config(s, Done(true))];
    }

    method ReleaseWeak(world: seq<seq<Event>>) returns (ghost path: seq<Config>)
      modifies this
      ensures Path(path, Config(old(s), HoldsWeak), Config(s, Done(true)), false)
      ensures world == [] ==> s == WithoutWeak(old(s))
    {
      ghost var start, c := Config(s, HoldsWeak), Config(s, TestingWeak);
      PathOwn([start], start, start, c, false, false);
      path := DropWeak(world, start, [start] + [c]);
    }

    /** The temporary resurrection of an actor that has to clean up; `last` says whether it stays the last one. */
    method CleanUpUnreachable(world: seq<seq<Event>>, ghost start: Config, ghost before: seq<Config>)
      returns (last: bool, ghost path: seq<Config>)
      requires Path(before, start, Config(s, Closing), false)
      modifies this
      ensures Path(path, start, Config(s, if last then Destroying else Done(true)), false)
      ensures world == [] && old(s).strong == 0 ==> last && s == old(s).(terminated := true)
    {
      path := Interfere(Closing, Nth(world, 0), start, before, false);
      ghost var c := Config(s, Closing);
      s := s.(strong := s.strong + 1);
      PathOwn(path, start, c, Config(s, Cleaning), false, false);
      path := Interfere(Cleaning, Nth(world, 1), start, path + [Config(s, Cleaning)], false);
      c := Config(s, Cleaning);
      s := s.(terminated := true);
      PathOwn(path, start, c, Config(s, Cleaned), false, false);
      last, path := TakeBack(Nth(world, 2), start, path + [Config(s, Cleaned)]);
    }

    /** The decrement after the cleanup. */
    method TakeBack(es: seq<Event>, ghost start: Config, ghost before: seq<Config>)
      returns (last: bool, ghost path: seq<Config>)
      requires Path(before, start, Config(s, Cleaned), false)
      modifies this
      ensures Path(path, start, Config(s, if last then Destroying else Done(true)), false)
      ensures es == [] ==> (last <==> old(s).strong == 1) && s == old(s).(strong := Dec(old(s).strong))
    {
      path := Interfere(Cleaned, es, start, before, false);
      ghost var c := Config(s, Cleaned);
      last := s.strong == 1;
      s := s.(strong := Dec(s.strong));
      ghost var c' := Config(s, if last then Destroying else Done(true));
      PathOwn(path, start, c, c', false, false);
      path := path + [c'];
    }

    /** The part of a release after the strong count dropped to zero. */
    method LastRelease(world: seq<seq<Event>>, ghost start: Config, ghost before: seq<Config>) returns (ghost path: seq<Config>)
      requires Path(before, start, Config(s, Dropped), false)
      modifies this
      ensures Path(path, start, Config(s, Done(true)), false)
      ensures world == [] && old(s).strong == 0 ==> s == Destroyed(old(s))
    {
      path := Interfere(Dropped, Nth(world, 0), start, before, false);
      ghost var c := Config(s, Dropped);
      var last := true;
      if s.terminated {
        PathOwn(path, start, c, Config(s, Destroying), false, false);
        path := path + [Config(s, Destroying)];
      } else {
        PathOwn(path, start, c, Config(s, Closing), false, false);
        last, path := CleanUpUnreachable(Behind(world, 1), start, path + [Config(s, Closing)]);
      }
      if last {
        path := Interfere(Destroying, Nth(world, 4), start, path, false);
        c := Config(s, Destroying);
        s := s.(dataDtors := s.dataDtors + 1);
        PathOwn(path, start, c, Config(s, TestingWeak), false, false);
        path := DropWeak(Behind(world, 5), start, path + [Config(s, TestingWeak)]);
      }
    }

    method Release(world: seq<seq<Event>>) returns (ghost path: seq<Config>)
      modifies this
      ensures Path(path, Config(old(s), HoldsStrong), Config(s, Done(true)), false)
      ensures world == [] && old(s).strong > 1 ==> s == old(s).(strong := old(s).strong - 1)
      ensures world == [] && old(s).strong == 1 ==> s == Destroyed(old(s).(strong := 0))
    {
      ghost var start := Config(s, HoldsStrong);
      path := Interfere(HoldsStrong, Nth(world, 0), start, [start], false);
      ghost var c := Config(s, HoldsStrong);
      var last := s.strong == 1;
      s := s.(strong := Dec(s.strong));
      ghost var c' := Config(s, if last then Dropped else Done(true));
      PathOwn(path, start, c, c', false, false);
      path := path + [c'];
      if last {
        path := LastRelease(Behind(world, 1), start, path);
      }
    }
  }

  function Behind<T>(world: seq<seq<T>>, k: nat): (r: seq<seq<T>>) {
    if k <= |world| then world[k..] else []
  }
}
