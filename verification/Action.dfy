/**
 Actions: a function object with a lock-free four-state life cycle.

 Any number of threads run or dispose one action at the same time. The code of
 default_action_impl is split at its atomic operations and at the begin and end of the call of the
 stored function. Threads are anonymous: a state says how many of them stand at each point. A load
 followed by a compare-exchange on the loaded value is one step that may fail without effect, which
 also covers spurious failures and failures because the value changed in between.
 */
module Action {
  import opened Basics

  datatype Status = Scheduled | Running | DeferredDispose | Disposed

  datatype State = State(
    singleShot: bool,           // IsSingleShot
    status: Status,             // state_
    calls: nat,                 // started calls of f_
    dtors: nat,                 // completed calls of ~F
    committed: nat,             // run: the first compare-exchange succeeded, about to call f_
    inside: nat,                // run: inside f_
    returned: nat,              // run: f_ returned
    deferring: nat,             // run_multi_shot: about to go from deferred_dispose to disposed
    runnersDestroying: nat,     // run: about to destroy f_
    disposing: nat,             // dispose: in the loop
    disposersDestroying: nat,   // dispose: about to destroy f_
    disposeReturned: bool,      // some dispose() has returned
    gone: bool,                 // the destructor of the action has run
    assertFailed: bool)         // one of the CAF_ASSERTs did not hold

  predicate Initial(s: State) {
    && s.status == Scheduled && !s.disposeReturned && !s.gone && !s.assertFailed
    && s.calls == s.dtors == s.committed == s.inside == s.returned == 0
    && s.deferring == s.runnersDestroying == s.disposing == s.disposersDestroying == 0
  }

  datatype Event =
    | StartRun | Call | Return | Finish | FinishDeferred | RunnerDestroys
    | StartDispose | TryDispose(fails: bool) | DisposerDestroys | Destructor

  predicate Busy(s: State) {
    s.committed + s.inside + s.returned + s.deferring + s.runnersDestroying + s.disposing + s.disposersDestroying > 0
  }

  /** Threads use the action only through a reference, so its destructor runs last. */
  predicate Enabled(s: State, e: Event)
  {
    && !s.gone
    && match e
       case StartRun => true
       case Call => s.committed > 0
       case Return => s.inside > 0
       case Finish => s.returned > 0
       case FinishDeferred => s.deferring > 0
       case RunnerDestroys => s.runnersDestroying > 0
       case StartDispose => true
       case TryDispose(_) => s.disposing > 0
       case DisposerDestroys => s.disposersDestroying > 0
       case Destructor => !Busy(s)
  }

  function Step(s: State, e: Event): (s': State)
    requires Enabled(s, e)
  {
    match e
    case StartRun =>
      if s.status != Scheduled then s
      else s.(status := if s.singleShot then Disposed else Running, committed := s.committed + 1)
    case Call => s.(committed := s.committed - 1, inside := s.inside + 1, calls := s.calls + 1)
    case Return => s.(inside := s.inside - 1, returned := s.returned + 1)
    case Finish =>
      if s.singleShot then s.(returned := s.returned - 1, runnersDestroying := s.runnersDestroying + 1)
      else if s.status == Running then s.(status := Scheduled, returned := s.returned - 1)
      else s.(returned := s.returned - 1, deferring := s.deferring + 1,
              assertFailed := s.assertFailed || s.status != DeferredDispose)
    case FinishDeferred =>
      s.(deferring := s.deferring - 1, runnersDestroying := s.runnersDestroying + 1,
         status := if s.status == DeferredDispose then Disposed else s.status,
         assertFailed := s.assertFailed || s.status != DeferredDispose)
    case RunnerDestroys => s.(runnersDestroying := s.runnersDestroying - 1, dtors := s.dtors + 1)
    case StartDispose => s.(disposing := s.disposing + 1)
    case TryDispose(fails) =>
      if s.status == Disposed || s.status == DeferredDispose then
        s.(disposing := s.disposing - 1, disposeReturned := true)
      else if fails then s
      else if s.status == Scheduled then
        s.(status := Disposed, disposing := s.disposing - 1, disposersDestroying := s.disposersDestroying + 1)
      else s.(status := DeferredDispose, disposing := s.disposing - 1, disposeReturned := true)
    case DisposerDestroys =>
      s.(disposersDestroying := s.disposersDestroying - 1, dtors := s.dtors + 1, disposeReturned := true)
    case Destructor =>
      s.(gone := true, dtors := s.dtors + if s.status == Scheduled then 1 else 0,
         assertFailed := s.assertFailed || s.status == Running || s.status == DeferredDispose)
  }

  ghost predicate Next(s: State, t: State) {
    exists e :: Enabled(s, e) && Step(s, e) == t
  }

  ghost predicate Stepped(run: seq<State>, i: nat)
    requires i + 1 < |run|
  {
    Next(run[i], run[i + 1])
  }

  /** A stretch of an interleaved execution. */
  ghost predicate Run(run: seq<State>) {
    run != [] && forall i :: 0 <= i < |run| - 1 ==> Stepped(run, i)
  }

  ghost predicate Reachable(s: State) {
    exists run :: Run(run) && Initial(run[0]) && run[|run| - 1] == s
  }

  // -- The invariant ----------------------------------------------------------------

  /** Threads in or around the call of f_ that own it. */
  function Owners(s: State): nat {
    s.committed + s.inside + s.returned + s.deferring
  }

  /** Destructions of f_ that are due or done. */
  function Destructions(s: State): nat {
    s.runnersDestroying + s.disposersDestroying + s.dtors
  }

  ghost predicate Inv(s: State)
  {
    && !s.assertFailed
    && (s.gone ==> !Busy(s) && s.dtors == 1 && s.status != Running && s.status != DeferredDispose)
    && (s.disposeReturned ==> IsDisposed(s.status))
    && (s.status == Scheduled && !s.gone ==> Owners(s) == 0 && Destructions(s) == 0)
    && (s.singleShot ==>
          && (s.status == Scheduled || s.status == Disposed)
          && s.deferring == 0
          && (s.status == Disposed ==> Owners(s) + Destructions(s) == 1)
          && s.calls + s.committed <= 1
          && (s.status == Scheduled ==> s.calls == 0))
    && (!s.singleShot ==>
          && (s.status == Running || s.status == DeferredDispose ==> Owners(s) == 1 && Destructions(s) == 0)
          && (s.status == Disposed ==> Owners(s) == 0 && Destructions(s) == 1)
          && (s.deferring > 0 ==> s.status == DeferredDispose))
  }

  predicate IsDisposed(status: Status) {
    status == Disposed || status == DeferredDispose
  }

  predicate Disposes(e: Event) {
    e == StartDispose || e.TryDispose? || e == DisposerDestroys || e == Destructor
  }

  lemma DisposeInv(s: State, e: Event)
    requires Inv(s) && Enabled(s, e) && Disposes(e)
    ensures Inv(Step(s, e))
  {
  }

  lemma RunnerInv(s: State, e: Event)
    requires Inv(s) && Enabled(s, e) && !Disposes(e)
    ensures Inv(Step(s, e))
  {
  }

  lemma StepInv(s: State, e: Event)
    requires Inv(s) && Enabled(s, e)
    ensures Inv(Step(s, e))
  {
    if Disposes(e) {
      DisposeInv(s, e);
    } else {
      RunnerInv(s, e);
    }
  }

  lemma NextInv(s: State, t: State)
    requires Inv(s) && Next(s, t)
    ensures Inv(t)
  {
    var e :| Enabled(s, e) && Step(s, e) == t;
    StepInv(s, e);
  }

  lemma InitialInv(s: State)
    requires Initial(s)
    ensures Inv(s)
  {
  }

  lemma {:induction false} RunInv(run: seq<State>, k: nat)
    requires Run(run) && Inv(run[0]) && k < |run|
    ensures Inv(run[k])
  {
    if k > 0 {
      RunInv(run, k - 1);
      assert Stepped(run, k - 1);
      NextInv(run[k - 1], run[k]);
    }
  }

  lemma LastInv(run: seq<State>, s: State)
    requires Run(run) && Initial(run[0]) && run[|run| - 1] == s
    ensures Inv(s)
  {
    InitialInv(run[0]);
    RunInv(run, |run| - 1);
  }

  lemma ReachableInv(s: State)
    requires Reachable(s)
    ensures Inv(s)
  {
    var run :| Run(run) && Initial(run[0]) && run[|run| - 1] == s;
    LastInv(run, s);
  }

  // -- What every interleaving keeps --------------------------------------------------

  /**
   The stored function is never called after its destruction, has at most one thread inside, is
   called at most once in the single-shot form, and is destroyed exactly once by the time the action
   is gone. None of the assertions in the code can fail.
   */
  lemma FunctionUsedSafely(s: State)
    requires Reachable(s)
    ensures s.committed + s.inside > 0 ==> Destructions(s) == 0
    ensures s.committed + s.inside <= 1 && s.dtors <= 1
    ensures s.singleShot ==> s.calls <= 1
    ensures s.gone ==> s.dtors == 1
    ensures !s.assertFailed
  {
    ReachableInv(s);
  }

  lemma DisposedStep(s: State, t: State)
    requires Inv(s) && Next(s, t) && IsDisposed(s.status)
    ensures IsDisposed(t.status)
    ensures s.calls <= t.calls && t.calls + t.committed <= s.calls + s.committed
  {
    var e :| Enabled(s, e) && Step(s, e) == t;
  }

  /** Once disposed, always disposed, and only runs that had already committed still call f_. */
  lemma {:induction false} DisposedIsForever(run: seq<State>, k: nat)
    requires Run(run) && Reachable(run[0]) && IsDisposed(run[0].status) && k < |run|
    ensures IsDisposed(run[k].status)
    ensures run[0].calls <= run[k].calls
    ensures run[k].calls + run[k].committed <= run[0].calls + run[0].committed <= run[0].calls + 1
  {
    ReachableInv(run[0]);
    if k > 0 {
      DisposedIsForever(run, k - 1);
      RunInv(run, k - 1);
      assert Stepped(run, k - 1);
      DisposedStep(run[k - 1], run[k]);
    }
  }

  /** After dispose() has returned, disposed() holds. */
  lemma DisposeReturnedMeansDisposed(s: State)
    requires Reachable(s) && s.disposeReturned
    ensures IsDisposed(s.status)
  {
    ReachableInv(s);
  }

  /** A dispose of a disposed action returns at its next look at the state. */
  lemma DisposeOfDisposedReturns(s: State, fails: bool)
    requires Enabled(s, TryDispose(fails)) && IsDisposed(s.status)
    ensures Step(s, TryDispose(fails)) == s.(disposing := s.disposing - 1, disposeReturned := true)
  {
  }

  ghost predicate CallStartsLater(s: State) {
    exists run: seq<State> :: Run(run) && run[0] == s && run[|run| - 1].calls > s.calls
  }

  /**
   "No call of the function starts after dispose() has returned" does not hold as it stands: a run
   that won its compare-exchange before the dispose still calls f_ afterwards. It holds exactly when
   no run has committed, and there is never more than one such late call (DisposedIsForever).
   */
  lemma NoCallAfterDisposeIff(s: State)
    requires Reachable(s) && s.disposeReturned
    ensures CallStartsLater(s) <==> s.committed > 0
  {
    ReachableInv(s);
    if s.committed > 0 {
      var t := Step(s, Call);
      assert Next(s, t);
      var run := [s, t];
      assert Stepped(run, 0);
      assert Run(run) && run[0] == s && run[|run| - 1].calls > s.calls;
    }
    if CallStartsLater(s) {
      var run: seq<State> :| Run(run) && run[0] == s && run[|run| - 1].calls > s.calls;
      DisposedIsForever(run, |run| - 1);
    }
  }

  lemma NextReachable(s: State, t: State)
    requires Reachable(s) && Next(s, t)
    ensures Reachable(t)
  {
    var run :| Run(run) && Initial(run[0]) && run[|run| - 1] == s;
    var longer := run + [t];
    forall i | 0 <= i < |longer| - 1 ensures Stepped(longer, i) {
      if i < |run| - 1 {
        assert Stepped(run, i);
      }
    }
    assert Run(longer) && Initial(longer[0]) && longer[|longer| - 1] == t;
  }

  /** What a caller can rely on: a dispose that finds the action scheduled is followed by no call, in any run. */
  lemma NoCallAfterDisposeOfScheduled(s: State, run: seq<State>, k: nat)
    requires Reachable(s) && s.status == Scheduled && Enabled(s, TryDispose(false))
    requires Run(run) && run[0] == Step(s, TryDispose(false)) && k < |run|
    ensures run[k].calls == s.calls && IsDisposed(run[k].status)
  {
    ReachableInv(s);
    assert Next(s, run[0]);
    NextReachable(s, run[0]);
    DisposedIsForever(run, k);
  }

  /** The late call does happen, in the single-shot and in the multi-shot form. */
  lemma LateCallExists(singleShot: bool)
    ensures exists s :: Reachable(s) && s.singleShot == singleShot && s.disposeReturned && CallStartsLater(s)
  {
    var s0 := State(singleShot, Scheduled, 0, 0, 0, 0, 0, 0, 0, 0, 0, false, false, false);
    var s1 := Step(s0, StartRun);
    var s2 := Step(s1, StartDispose);
    var s3 := Step(s2, TryDispose(false));
    var run := [s0, s1, s2, s3];
    assert Next(s0, s1) && Next(s1, s2) && Next(s2, s3);
    assert Stepped(run, 0) && Stepped(run, 1) && Stepped(run, 2);
    assert Run(run) && Initial(run[0]) && run[|run| - 1] == s3;
    NoCallAfterDisposeIff(s3);
  }

  // -- A multi-shot action can run again ------------------------------------------------

  ghost predicate Undisturbed(run: seq<State>, i: nat)
    requires i + 1 < |run|
  {
    exists e :: e != StartDispose && e != Destructor && Enabled(run[i], e) && Step(run[i], e) == run[i + 1]
  }

  ghost predicate Reusable(s: State) {
    && Inv(s) && !s.singleShot && !s.gone && (s.status == Scheduled || s.status == Running)
    && s.dtors == s.disposing == s.disposersDestroying == s.runnersDestroying == s.deferring == 0
  }

  lemma ReusableStep(s: State, e: Event)
    requires Reusable(s) && Enabled(s, e) && e != StartDispose && e != Destructor
    ensures Reusable(Step(s, e))
  {
    StepInv(s, e);
  }

  /** As long as nobody disposes a multi-shot action it is scheduled or running, and its function is there. */
  lemma {:induction false} UndisposedStaysReusable(run: seq<State>, k: nat)
    requires run != [] && Initial(run[0]) && !run[0].singleShot && k < |run|
    requires forall i :: 0 <= i < |run| - 1 ==> Undisturbed(run, i)
    ensures run[k].status in {Scheduled, Running} && run[k].dtors == 0 && Reusable(run[k])
    ensures run[k].status == Scheduled ==>
              Enabled(run[k], StartRun) && Step(run[k], StartRun).committed == run[k].committed + 1
  {
    if k == 0 {
      InitialInv(run[0]);
    } else {
      UndisposedStaysReusable(run, k - 1);
      assert Undisturbed(run, k - 1);
      var e :| e != StartDispose && e != Destructor && Enabled(run[k - 1], e) && Step(run[k - 1], e) == run[k];
      ReusableStep(run[k - 1], e);
    }
  }

  // -- The decorator of the actor clock -----------------------------------------------

  /**
   action_decorator: resume swaps the worker out under the mutex and passes the decorated action to it
   unless the action is disposed. Several threads may resume and dispose at the same time.
   */
  datatype Decorator = Decorator(
    weakWorker: bool,       // WorkerPtr is a weak pointer
    worker: bool,           // worker_ != nullptr
    disposed: bool,         // decorated_->disposed(), never reset
    swapped: nat,           // resume: owns the worker, about to test disposed()
    passed: nat,            // resume: the test passed, about to enqueue
    expired: nat,           // resume: no worker to lock, about to dispose the decorated action
    clearing: nat,          // dispose: the decorated action is disposed, about to reset worker_
    enqueued: nat)

  datatype DecoratorEvent =
    | Swap | LockFails | Test | Enqueue | DisposeExpired | DisposeDecorated | ClearWorker | DisposedElsewhere

  predicate Possible(d: Decorator, e: DecoratorEvent) {
    match e
    case Swap => true
    case LockFails => d.weakWorker && d.swapped > 0
    case Test => d.swapped > 0
    case Enqueue => d.passed > 0
    case DisposeExpired => d.expired > 0
    case DisposeDecorated => true
    case ClearWorker => d.clearing > 0
    case DisposedElsewhere => true
  }

  function Apply(d: Decorator, e: DecoratorEvent): (d': Decorator)
    requires Possible(d, e)
  {
    match e
    case Swap =>
      if d.worker then d.(worker := false, swapped := d.swapped + 1)
      else if d.weakWorker then d.(expired := d.expired + 1)
      else d
    case LockFails => d.(swapped := d.swapped - 1, expired := d.expired + 1)
    case Test => d.(swapped := d.swapped - 1, passed := d.passed + if d.disposed then 0 else 1)
    case Enqueue => d.(passed := d.passed - 1, enqueued := d.enqueued + 1)
    case DisposeExpired => d.(expired := d.expired - 1, disposed := true)
    case DisposeDecorated => d.(disposed := true, clearing := d.clearing + 1)
    case ClearWorker => d.(clearing := d.clearing - 1, worker := false)
    case DisposedElsewhere => d.(disposed := true)
  }

  function ApplyAll(d: Decorator, es: seq<DecoratorEvent>): (d': Decorator)
    decreases |es|
  {
    if es == [] || !Possible(d, es[0]) then d else ApplyAll(Apply(d, es[0]), es[1..])
  }

  function Chances(d: Decorator): nat {
    (if d.worker then 1 else 0) + d.swapped + d.passed + d.enqueued
  }

  /** A decorator hands its action to the worker at most once, however often it is resumed. */
  lemma {:induction false} EnqueuedAtMostOnce(d: Decorator, es: seq<DecoratorEvent>)
    requires Chances(d) <= 1
    ensures Chances(ApplyAll(d, es)) <= 1 && ApplyAll(d, es).enqueued <= 1
    decreases |es|
  {
    if es != [] && Possible(d, es[0]) {
      EnqueuedAtMostOnce(Apply(d, es[0]), es[1..]);
    }
  }

  /** While the action is not disposed and the worker can be locked, a chance to enqueue is never lost. */
  lemma {:induction false} ChanceIsKept(d: Decorator, es: seq<DecoratorEvent>)
    requires !ApplyAll(d, es).disposed && d.clearing == 0 && forall i :: 0 <= i < |es| ==> es[i] != LockFails
    ensures Chances(ApplyAll(d, es)) == Chances(d)
    decreases |es|
  {
    if es != [] && Possible(d, es[0]) {
      if Apply(d, es[0]).disposed {
        DisposedIsNotEnqueued(Apply(d, es[0]), es[1..]);
      }
      ChanceIsKept(Apply(d, es[0]), es[1..]);
    }
  }

  /** A resume that nobody disturbs enqueues an action that is not disposed, and disposes it without a worker. */
  lemma ResumeOutcome(d: Decorator)
    ensures d.worker && !d.disposed ==>
              ApplyAll(d, [Swap, Test, Enqueue]) == d.(worker := false, enqueued := d.enqueued + 1)
    ensures d.worker && d.disposed ==> ApplyAll(d, [Swap, Test]) == d.(worker := false)
    ensures d.worker && d.weakWorker ==>
              ApplyAll(d, [Swap, LockFails, DisposeExpired]) == d.(worker := false, disposed := true)
    ensures !d.worker && d.weakWorker ==> ApplyAll(d, [Swap, DisposeExpired]) == d.(disposed := true)
    ensures !d.worker && !d.weakWorker ==> Apply(d, Swap) == d
  {
    TwoEvents(d, Swap, Test);
    TwoEvents(d, Swap, DisposeExpired);
    ThreeEvents(d, Swap, Test, Enqueue);
    ThreeEvents(d, Swap, LockFails, DisposeExpired);
  }

  lemma TwoEvents(d: Decorator, a: DecoratorEvent, b: DecoratorEvent)
    requires Possible(d, a)
    ensures ApplyAll(d, [a, b]) == if Possible(Apply(d, a), b) then Apply(Apply(d, a), b) else Apply(d, a)
  {
    assert [a, b][1..] == [b] && [b][1..] == [];
    var d1 := Apply(d, a);
    assert ApplyAll(d, [a, b]) == ApplyAll(d1, [b]);
    if Possible(d1, b) {
      assert ApplyAll(d1, [b]) == ApplyAll(Apply(d1, b), []);
    }
  }

  lemma ThreeEvents(d: Decorator, a: DecoratorEvent, b: DecoratorEvent, c: DecoratorEvent)
    requires Possible(d, a)
    ensures Possible(Apply(d, a), b) ==>
              ApplyAll(d, [a, b, c]) ==
                var d2 := Apply(Apply(d, a), b);
                if Possible(d2, c) then Apply(d2, c) else d2
  {
    assert [a, b, c][1..] == [b, c];
    if Possible(Apply(d, a), b) {
      TwoEvents(Apply(d, a), b, c);
    }
  }

  /** Once the action is disposed only a resume that has already passed its test still enqueues. */
  lemma {:induction false} DisposedIsNotEnqueued(d: Decorator, es: seq<DecoratorEvent>)
    requires d.disposed
    ensures ApplyAll(d, es).disposed
    ensures ApplyAll(d, es).enqueued + ApplyAll(d, es).passed == d.enqueued + d.passed
    decreases |es|
  {
    if es != [] && Possible(d, es[0]) {
      DisposedIsNotEnqueued(Apply(d, es[0]), es[1..]);
    }
  }

  // -- One thread among others -----------------------------------------------------------

  /** Where the thread that runs or disposes the action stands. */
  datatype Pc =
    | Outside | Committed | Inside | Returned | Deferring | RunnerDestroying | Disposing | DisposerDestroying | Done

  /** The thread, and the action with what all other threads do. */
  datatype Config = Config(rest: State, pc: Pc)

  /** The state of the protocol: the thread is one of the anonymous ones. */
  function Full(c: Config): (s: State) {
    var s := c.rest;
    match c.pc
    case Committed => s.(committed := s.committed + 1)
    case Inside => s.(inside := s.inside + 1)
    case Returned => s.(returned := s.returned + 1)
    case Deferring => s.(deferring := s.deferring + 1)
    case RunnerDestroying => s.(runnersDestroying := s.runnersDestroying + 1)
    case Disposing => s.(disposing := s.disposing + 1)
    case DisposerDestroying => s.(disposersDestroying := s.disposersDestroying + 1)
    case _ => s
  }

  /** The thread holds a reference, so the destructor does not run. */
  predicate Foreign(c: Config, e: Event) {
    Enabled(c.rest, e) && e != Destructor
  }

  function OwnEvent(pc: Pc, dispose: bool): (e: Event)
    requires pc != Done
  {
    match pc
    case Outside => if dispose then StartDispose else StartRun
    case Committed => Call
    case Inside => Return
    case Returned => Finish
    case Deferring => FinishDeferred
    case RunnerDestroying => RunnerDestroys
    case Disposing => TryDispose(false)
    case DisposerDestroying => DisposerDestroys
  }

  ghost predicate SameOthers(s: State, t: State) {
    && t.committed == s.committed && t.inside == s.inside && t.returned == s.returned && t.deferring == s.deferring
    && t.runnersDestroying == s.runnersDestroying && t.disposing == s.disposing
    && t.disposersDestroying == s.disposersDestroying
  }

  /** The thread takes its next step: the protocol moves with it, and nobody else does. */
  ghost predicate OwnStep(c: Config, c': Config, dispose: bool) {
    && c.pc != Done && c'.pc != Outside && Enabled(Full(c), OwnEvent(c.pc, dispose))
    && Full(c') == Step(Full(c), OwnEvent(c.pc, dispose)) && SameOthers(c.rest, c'.rest)
  }

  ghost predicate ConfigStep(c: Config, c': Config, dispose: bool) {
    || (exists e :: Foreign(c, e) && c' == Config(Step(c.rest, e), c.pc))
    || OwnStep(c, c', dispose)
  }

  /** Threads at program points, to be added to a state. */
  datatype Tokens = Tokens(committed: nat, inside: nat, returned: nat, deferring: nat, runnersDestroying: nat,
                           disposing: nat, disposersDestroying: nat)

  function TokenOf(pc: Pc): (d: Tokens) {
    var none := Tokens(0, 0, 0, 0, 0, 0, 0);
    match pc
    case Committed => none.(committed := 1)
    case Inside => none.(inside := 1)
    case Returned => none.(returned := 1)
    case Deferring => none.(deferring := 1)
    case RunnerDestroying => none.(runnersDestroying := 1)
    case Disposing => none.(disposing := 1)
    case DisposerDestroying => none.(disposersDestroying := 1)
    case _ => none
  }

  function Plus(s: State, d: Tokens): (t: State) {
    State(s.singleShot, s.status, s.calls, s.dtors,
          s.committed + d.committed, s.inside + d.inside, s.returned + d.returned, s.deferring + d.deferring,
          s.runnersDestroying + d.runnersDestroying, s.disposing + d.disposing,
          s.disposersDestroying + d.disposersDestroying, s.disposeReturned, s.gone, s.assertFailed)
  }

  lemma FullIsPlus(c: Config)
    ensures Full(c) == Plus(c.rest, TokenOf(c.pc))
  {
    match c.pc
    case Outside =>
    case Committed =>
    case Inside =>
    case Returned =>
    case Deferring =>
    case RunnerDestroying =>
    case Disposing =>
    case DisposerDestroying =>
    case Done =>
  }

  ghost predicate SameStep(s: State, d: Tokens, e: Event)
    requires Enabled(s, e)
  {
    Enabled(Plus(s, d), e) && Plus(Step(s, e), d) == Step(Plus(s, d), e)
  }

  lemma PlusDispose(s: State, d: Tokens, e: Event)
    requires Enabled(s, e) && e != Destructor && Disposes(e)
    ensures SameStep(s, d, e)
  {
  }

  lemma PlusRun(s: State, d: Tokens, e: Event)
    requires Enabled(s, e) && !Disposes(e)
    ensures SameStep(s, d, e)
  {
  }

  /** A step of another thread is the same step of the protocol. */
  lemma ForeignIsStep(c: Config, e: Event)
    requires Foreign(c, e)
    ensures Enabled(Full(c), e) && Full(Config(Step(c.rest, e), c.pc)) == Step(Full(c), e)
  {
    FullIsPlus(c);
    FullIsPlus(Config(Step(c.rest, e), c.pc));
    if Disposes(e) {
      PlusDispose(c.rest, TokenOf(c.pc), e);
    } else {
      PlusRun(c.rest, TokenOf(c.pc), e);
    }
  }

  lemma ConfigStepIsNext(c: Config, c': Config, dispose: bool)
    requires ConfigStep(c, c', dispose)
    ensures Next(Full(c), Full(c'))
  {
    if e :| Foreign(c, e) && c' == Config(Step(c.rest, e), c.pc) {
      ForeignIsStep(c, e);
    }
  }

  ghost predicate Moved(path: seq<Config>, i: nat, dispose: bool)
    requires i + 1 < |path|
  {
    ConfigStep(path[i], path[i + 1], dispose)
  }

  /** From c to c' by steps of this thread and of others in between. */
  ghost predicate Path(path: seq<Config>, c: Config, c': Config, dispose: bool) {
    && path != [] && path[0] == c && path[|path| - 1] == c'
    && forall i :: 0 <= i < |path| - 1 ==> Moved(path, i, dispose)
  }

  lemma PathExtends(path: seq<Config>, start: Config, c: Config, c': Config, dispose: bool)
    requires Path(path, start, c, dispose) && ConfigStep(c, c', dispose)
    ensures Path(path + [c'], start, c', dispose)
  {
    var longer := path + [c'];
    forall i | 0 <= i < |longer| - 1 ensures Moved(longer, i, dispose) {
      if i < |path| - 1 {
        assert Moved(path, i, dispose);
      }
    }
  }

  /** Every run or dispose, with whatever happens around it, is a stretch of a run of the protocol. */
  lemma {:induction false} PathReachable(path: seq<Config>, c: Config, c': Config, dispose: bool)
    requires Path(path, c, c', dispose) && Reachable(Full(c))
    ensures Reachable(Full(c'))
    decreases |path|
  {
    if |path| > 1 {
      var front := path[..|path| - 1];
      var mid := front[|front| - 1];
      forall i | 0 <= i < |front| - 1 ensures Moved(front, i, dispose) {
        assert Moved(path, i, dispose);
      }
      PathReachable(front, c, mid, dispose);
      assert Moved(path, |path| - 2, dispose);
      ConfigStepIsNext(mid, c', dispose);
      NextReachable(Full(mid), Full(c'));
    }
  }

  // -- The functions themselves ---------------------------------------------------------

  /**
   default_action_impl as one thread sees it: the action, and what all other threads do. `world` lists
   what they do before each atomic operation of this thread and during its call of the function.
   */
  class ActionImpl {
    var s: State

    constructor (singleShot: bool)
      ensures Initial(s) && s.singleShot == singleShot
    {
      s := State(singleShot, Scheduled, 0, 0, 0, 0, 0, 0, 0, 0, 0, false, false, false);
    }

    /** Other threads take the given steps, as far as they can. */
    method Interfere(pc: Pc, es: seq<Event>, ghost start: Config, ghost before: seq<Config>, ghost dispose: bool)
      returns (ghost path: seq<Config>)
      requires Path(before, start, Config(s, pc), dispose)
      modifies this
      ensures Path(path, start, Config(s, pc), dispose)
      ensures s.gone == old(s).gone && s.singleShot == old(s).singleShot && (es == [] ==> s == old(s))
    {
      path := before;
      for i := 0 to |es|
        invariant Path(path, start, Config(s, pc), dispose) && (i == 0 ==> s == old(s))
        invariant s.gone == old(s).gone && s.singleShot == old(s).singleShot
      {
        if Foreign(Config(s, pc), es[i]) {
          ghost var c := Config(s, pc);
          s := Step(s, es[i]);
          PathExtends(path, start, c, Config(s, pc), dispose);
          path := path + [Config(s, pc)];
        }
      }
    }

    /**
     The loop of dispose. Each round loads the state; other threads may change it before the
     compare-exchange, which may also fail without a reason.
     */
    method Dispose(world: seq<seq<Event>>, spurious: seq<bool>) returns (ghost path: seq<Config>)
      requires !s.gone
      modifies this
      ensures Path(path, Config(old(s), Outside), Config(s, Done), true) && s.disposeReturned
      ensures world == [] ==>
                s == match old(s).status
                     case Scheduled => old(s).(status := Disposed, dtors := old(s).dtors + 1, disposeReturned := true)
                     case Running => old(s).(status := DeferredDispose, disposeReturned := true)
                     case _ => old(s).(disposeReturned := true)
    {
      ghost var start := Config(s, Outside);
      PathExtends([start], start, start, Config(s, Disposing), true);
      path := [start] + [Config(s, Disposing)];
      var k := 0;
      while true
        invariant Path(path, start, Config(s, Disposing), true) && !s.gone && k <= |world| + |spurious|
        invariant world == [] ==> s == old(s)
        decreases |world| + |spurious| - k
      {
        var expected := s.status;
        if expected == Disposed || expected == DeferredDispose {
          ghost var c := Config(s, Disposing);
          s := s.(disposeReturned := true);
          PathExtends(path, start, c, Config(s, Done), true);
          path := path + [Config(s, Done)];
          return;
        }
        path := Interfere(Disposing, Nth(world, k), start, path, true);
        if s.status == expected && !(k < |spurious| && spurious[k]) {
          path := Exchange(Nth(world, k + 1), start, path);
          return;
        }
        k := k + 1;
      }
    }

    /** The compare-exchange that succeeds. */
    method Exchange(es: seq<Event>, ghost start: Config, ghost before: seq<Config>) returns (ghost path: seq<Config>)
      requires Path(before, start, Config(s, Disposing), true) && !s.gone
      requires s.status == Scheduled || s.status == Running
      modifies this
      ensures Path(path, start, Config(s, Done), true) && s.disposeReturned
      ensures es == [] ==>
                s == if old(s).status == Running then old(s).(status := DeferredDispose, disposeReturned := true)
                     else old(s).(status := Disposed, dtors := old(s).dtors + 1, disposeReturned := true)
    {
      ghost var c := Config(s, Disposing);
      if s.status == Running {
        s := s.(status := DeferredDispose, disposeReturned := true);
        PathExtends(before, start, c, Config(s, Done), true);
        return before + [Config(s, Done)];
      }
      s := s.(status := Disposed);
      PathExtends(before, start, c, Config(s, DisposerDestroying), true);
      path := Interfere(DisposerDestroying, es, start, before + [Config(s, DisposerDestroying)], true);
      c := Config(s, DisposerDestroying);
      s := s.(dtors := s.dtors + 1, disposeReturned := true);
      PathExtends(path, start, c, Config(s, Done), true);
      path := path + [Config(s, Done)];
    }

    /** The call of f_, with whatever other threads or the function itself do to the action meanwhile. */
    method CallFunction(world: seq<seq<Event>>, ghost start: Config, ghost before: seq<Config>) returns (ghost path: seq<Config>)
      requires Path(before, start, Config(s, Committed), false) && !s.gone
      modifies this
      ensures Path(path, start, Config(s, Returned), false) && !s.gone && s.singleShot == old(s).singleShot
      ensures world == [] ==> s == old(s).(calls := old(s).calls + 1)
    {
      path := Interfere(Committed, Nth(world, 0), start, before, false);
      ghost var c := Config(s, Committed);
      s := s.(calls := s.calls + 1);
      PathExtends(path, start, c, Config(s, Inside), false);
      path := Interfere(Inside, Nth(world, 1), start, path + [Config(s, Inside)], false);
      PathExtends(path, start, Config(s, Inside), Config(s, Returned), false);
      path := Interfere(Returned, Nth(world, 2), start, path + [Config(s, Returned)], false);
    }

    method DestroyFunction(es: seq<Event>, ghost start: Config, ghost before: seq<Config>) returns (ghost path: seq<Config>)
      requires Path(before, start, Config(s, RunnerDestroying), false) && !s.gone
      modifies this
      ensures Path(path, start, Config(s, Done), false)
      ensures es == [] ==> s == old(s).(dtors := old(s).dtors + 1)
    {
      path := Interfere(RunnerDestroying, es, start, before, false);
      ghost var c := Config(s, RunnerDestroying);
      s := s.(dtors := s.dtors + 1);
      PathExtends(path, start, c, Config(s, Done), false);
      path := path + [Config(s, Done)];
    }

    /** The first compare-exchange of a run; `won` tells whether the action was scheduled. */
    method StartRun(to: Status, ghost start: Config) returns (won: bool, ghost path: seq<Config>)
      requires start == Config(s, Outside) && !s.gone && to == if s.singleShot then Disposed else Running
      modifies this
      ensures Path(path, start, Config(s, if won then Committed else Done), false)
      ensures !s.gone && s.singleShot == old(s).singleShot
      ensures (won <==> old(s).status == Scheduled) && s == if won then old(s).(status := to) else old(s)
    {
      won := s.status == Scheduled;
      if won {
        s := s.(status := to);
      }
      ghost var c := Config(s, if won then Committed else Done);
      PathExtends([start], start, start, c, false);
      path := [start] + [c];
    }

    method RunSingleShot(world: seq<seq<Event>>) returns (ghost path: seq<Config>)
      requires s.singleShot && !s.gone
      modifies this
      ensures Path(path, Config(old(s), Outside), Config(s, Done), false)
      ensures old(s).status != Scheduled ==> s == old(s)
      ensures world == [] && old(s).status == Scheduled ==>
                s == old(s).(status := Disposed, calls := old(s).calls + 1, dtors := old(s).dtors + 1)
    {
      ghost var start := Config(s, Outside);
      var won;
      won, path := StartRun(Disposed, start);
      if won {
        path := CallFunction(world, start, path);
        PathExtends(path, start, Config(s, Returned), Config(s, RunnerDestroying), false);
        path := DestroyFunction(Nth(world, 3), start, path + [Config(s, RunnerDestroying)]);
      }
    }

    method RunMultiShot(world: seq<seq<Event>>) returns (ghost path: seq<Config>)
      requires !s.singleShot && !s.gone
      modifies this
      ensures Path(path, Config(old(s), Outside), Config(s, Done), false)
      ensures old(s).status != Scheduled ==> s == old(s)
      ensures world == [] && old(s).status == Scheduled ==> s == old(s).(calls := old(s).calls + 1)
    {
      ghost var start := Config(s, Outside);
      var won;
      won, path := StartRun(Running, start);
      if won {
        path := CallFunction(world, start, path);
        path := FinishMultiShot(world, start, path);
      }
    }

    /** A multi-shot action that nobody disposes calls its function as often as it runs. */
    method RunAgain(times: nat)
      requires !s.singleShot && !s.gone && s.status == Scheduled
      modifies this
      ensures s == old(s).(calls := old(s).calls + times)
    {
      for k := 0 to times
        invariant s == old(s).(calls := old(s).calls + k)
      {
        ghost var _ := RunMultiShot([]);
      }
    }

    /** The two compare-exchanges after the call, with their assertions. */
    method FinishMultiShot(world: seq<seq<Event>>, ghost start: Config, ghost before: seq<Config>) returns (ghost path: seq<Config>)
      requires Path(before, start, Config(s, Returned), false) && !s.singleShot && !s.gone
      modifies this
      ensures Path(path, start, Config(s, Done), false)
      ensures old(s).status == Running ==> s == old(s).(status := Scheduled)
      ensures world == [] && old(s).status == DeferredDispose ==>
                s == old(s).(status := Disposed, dtors := old(s).dtors + 1)
    {
      ghost var c := Config(s, Returned);
      if s.status == Running {
        s := s.(status := Scheduled);
        PathExtends(before, start, c, Config(s, Done), false);
        return before + [Config(s, Done)];
      }
      s := s.(assertFailed := s.assertFailed || s.status != DeferredDispose);
      PathExtends(before, start, c, Config(s, Deferring), false);
      path := Interfere(Deferring, Nth(world, 3), start, before + [Config(s, Deferring)], false);
      c := Config(s, Deferring);
      var ok := s.status == DeferredDispose;
      s := s.(status := if ok then Disposed else s.status, assertFailed := s.assertFailed || !ok);
      PathExtends(path, start, c, Config(s, RunnerDestroying), false);
      path := DestroyFunction(Nth(world, 4), start, path + [Config(s, RunnerDestroying)]);
    }
  }
}
