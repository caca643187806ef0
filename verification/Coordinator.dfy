/**
 The worker pool of the curl example: a coordinator hands each read job to an idle worker and, when
 none is left, switches to a behavior that stashes jobs until a worker has finished.

 The coordinator's mailbox is one FIFO. Jobs on their way to workers form one sequence of deliveries
 that workers may finish in any order. The stash is unbounded and unstashing keeps the order.
 */
module Coordinator {
  import opened Basics

  type Worker = nat

  /** A worker retries a failing transfer for ever; `ends` tells whether some attempt succeeds. */
  datatype Job = Job(id: int, ends: bool)

  datatype Msg = Read(job: Job) | Finished(worker: Worker)

  datatype Delivery = Delivery(worker: Worker, job: Job)

  // -- The coordinator ----------------------------------------------------------------------------

  datatype Pool = Pool(idle: seq<Worker>, busy: seq<Worker>, allBusy: bool, stash: seq<Job>)

  datatype Effect = Effect(pool: Pool, out: seq<Delivery>, unstashed: seq<Job>)

  function Without(s: seq<Worker>, w: Worker): (r: seq<Worker>) {
    if s == [] then [] else if s[0] == w then s[1..] else [s[0]] + Without(s[1..], w)
  }

  lemma {:induction false} WithoutAt(s: seq<Worker>, w: Worker, i: nat)
    requires i < |s| && s[i] == w && forall j :: 0 <= j < i ==> s[j] != w
    ensures Without(s, w) == s[..i] + s[i + 1..]
  {
    if i > 0 {
      WithoutAt(s[1..], w, i - 1);
      assert s[..i] == [s[0]] + s[1..][..i - 1];
    }
  }

  /** The handler finished(): moves the sender from busy to idle, if it is busy. */
  function Finish(p: Pool, w: Worker): (p': Pool) {
    if w in p.busy then p.(idle := p.idle + [w], busy := Without(p.busy, w)) else p
  }

  /** idle.back() is undefined on an empty pool. */
  predicate Defined(p: Pool, m: Msg) {
    m.Read? && !p.allBusy ==> p.idle != []
  }

  function React(p: Pool, m: Msg): (e: Effect)
    requires Defined(p, m)
  {
    match m
    case Read(job) =>
      if p.allBusy then Effect(p.(stash := p.stash + [job]), [], [])
      else
        var n := |p.idle| - 1;
        Effect(Pool(p.idle[..n], p.busy + [p.idle[n]], n == 0, p.stash), [Delivery(p.idle[n], job)], [])
    case Finished(w) =>
      if p.allBusy then Effect(Finish(p, w).(allBusy := false, stash := []), [], p.stash)
      else Effect(Finish(p, w), [], [])
  }

  class CoordinatorState {
    var idle: seq<Worker>
    var busy: seq<Worker>
    var allBusy: bool
    var stash: seq<Job>

    function View(): Pool
      reads this
    {
      Pool(idle, busy, allBusy, stash)
    }

    constructor (numWorkers: nat)
      ensures View() == Pool(seq(numWorkers, i => i), [], false, [])
    {
      var ws: seq<Worker> := [];
      for i := 0 to numWorkers
        invariant ws == seq(i, k => k)
      {
        ws := ws + [i];
      }
      idle, busy, allBusy, stash := ws, [], false, [];
    }

    /** std::find and erase. */
    method EraseBusy(w: Worker) returns (found: bool)
      modifies this`busy
      ensures found <==> w in old(busy)
      ensures busy == if found then Without(old(busy), w) else old(busy)
    {
      var i := 0;
      while i < |busy| && busy[i] != w
        invariant i <= |busy| && forall j :: 0 <= j < i ==> busy[j] != w
      {
        i := i + 1;
      }
      if i == |busy| {
        return false;
      }
      WithoutAt(busy, w, i);
      busy := busy[..i] + busy[i + 1..];
      return true;
    }

    method OnFinished(w: Worker)
      modifies this
      ensures View() == Finish(old(View()), w)
      ensures multiset(busy) == multiset(old(busy)) - multiset{w}
    {
      if w in busy {
        WithoutBag(busy, w);
      } else {
        assert multiset(busy) - multiset{w} == multiset(busy);
      }
      var found := EraseBusy(w);
      if found {
        idle := idle + [w];
      }
    }

    /** Hands the job to the worker at the back of the pool. */
    method Dispatch(job: Job) returns (out: seq<Delivery>)
      requires idle != [] && !allBusy
      modifies this
      ensures stash == old(stash) && (allBusy <==> idle == [])
      ensures idle == old(idle[..|idle| - 1]) && busy == old(busy + [idle[|idle| - 1]])
      ensures out == [Delivery(old(idle[|idle| - 1]), job)]
    {
      var worker := idle[|idle| - 1];
      idle := idle[..|idle| - 1];
      busy := busy + [worker];
      out := [Delivery(worker, job)];
      allBusy := idle == [];
    }

    method Receive(m: Msg) returns (out: seq<Delivery>, unstashed: seq<Job>)
      requires Defined(View(), m)
      modifies this
      ensures Effect(View(), out, unstashed) == React(old(View()), m)
      ensures m.Read? && !old(allBusy) ==>
                var w := old(idle[|idle| - 1]);
                && out == [Delivery(w, m.job)] && unstashed == [] && stash == old(stash)
                && idle + [w] == old(idle) && busy == old(busy) + [w] && (allBusy <==> idle == [])
      ensures m.Read? && old(allBusy) ==>
                out == [] && unstashed == [] && stash == old(stash) + [m.job] && idle == old(idle) && busy == old(busy) && allBusy
      ensures m.Finished? ==>
                && out == [] && !allBusy && idle == old(idle) + (if m.worker in old(busy) then [m.worker] else [])
                && multiset(busy) == multiset(old(busy)) - multiset{m.worker}
                && unstashed + stash == old(stash) && (old(allBusy) ==> stash == [])
    {
      out, unstashed := [], [];
      match m
      case Read(job) =>
        if allBusy {
          stash := stash + [job];
        } else {
          out := Dispatch(job);
        }
      case Finished(w) =>
        OnFinished(w);
        if allBusy {
          allBusy := false;
          unstashed, stash := stash, [];
        }
    }
  }

  lemma {:induction false} WithoutBag(s: seq<Worker>, w: Worker)
    requires w in s
    ensures multiset(Without(s, w)) == multiset(s) - multiset{w}
  {
    assert s == [s[0]] + s[1..];
    if s[0] != w {
      WithoutBag(s[1..], w);
      assert multiset(s) == multiset{s[0]} + multiset(s[1..]);
    }
  }

  /** The worker that has finished last gets the next job. */
  lemma LastFinishedWorksNext(p: Pool, w: Worker, job: Job)
    requires w in p.busy
    ensures var q := React(p, Finished(w)).pool;
            && Defined(q, Read(job)) && React(q, Read(job)).out == [Delivery(w, job)]
            && React(q, Read(job)).pool.idle == p.idle
  {
    var q := React(p, Finished(w)).pool;
    assert q.idle == p.idle + [w] && q.idle[..|p.idle|] == p.idle;
  }

  /** A finished message of a stranger changes neither list, but ends the behavior for busy workers. */
  lemma StrangersAreIgnored(p: Pool, w: Worker)
    requires w !in p.busy
    ensures var e := React(p, Finished(w));
            && e.pool.idle == p.idle && e.pool.busy == p.busy && e.out == [] && !e.pool.allBusy
            && e.unstashed + e.pool.stash == p.stash
  {
  }

  // -- The system -------------------------------------------------------------------------------------

  /** The last three fields are history: jobs in order of arrival, of dispatch and of reply. */
  datatype State = State(pool: Pool, mailbox: seq<Msg>, deliveries: seq<Delivery>, crashed: bool,
                         arrived: seq<Job>, dispatched: seq<Job>, replied: seq<Job>)

  datatype Event = Submit(job: Job) | Coordinate | WorkerDone(i: nat)

  function Initial(n: nat): (s: State) {
    State(Pool(seq(n, i => i), [], false, []), [], [], false, [], [], [])
  }

  predicate Enabled(s: State, e: Event) {
    match e
    case Submit(_) => true
    case Coordinate => s.mailbox != []
    case WorkerDone(i) =>
      && i < |s.deliveries| && s.deliveries[i].job.ends
      && forall j :: 0 <= j < i ==> s.deliveries[j].worker != s.deliveries[i].worker
  }

  function Reads(jobs: seq<Job>): (ms: seq<Msg>)
    ensures |ms| == |jobs| && forall i :: 0 <= i < |ms| ==> ms[i] == Read(jobs[i])
  {
    seq(|jobs|, i requires 0 <= i < |jobs| => Read(jobs[i]))
  }

  function JobsOf(ds: seq<Delivery>): (jobs: seq<Job>)
    ensures |jobs| == |ds| && forall i :: 0 <= i < |ds| ==> jobs[i] == ds[i].job
  {
    seq(|ds|, i requires 0 <= i < |ds| => ds[i].job)
  }

  function Step(s: State, e: Event): (s': State)
    requires Enabled(s, e)
  {
    match e
    case Submit(job) => s.(mailbox := s.mailbox + [Read(job)], arrived := s.arrived + [job])
    case Coordinate => Coordinated(s)
    case WorkerDone(i) =>
      var d := s.deliveries[i];
      s.(mailbox := s.mailbox + [Finished(d.worker)],
      deliveries := s.deliveries[..i] + s.deliveries[i + 1..], replied := s.replied + [d.job])
  }

  function Coordinated(s: State): (s': State)
    requires s.mailbox != []
  {
    var m := s.mailbox[0];
    if !Defined(s.pool, m) then s.(mailbox := s.mailbox[1..], crashed := true)
    else
      var e := React(s.pool, m);
      s.(pool := e.pool, mailbox := Reads(e.unstashed) + s.mailbox[1..],
      deliveries := s.deliveries + e.out, dispatched := s.dispatched + JobsOf(e.out))
  }

  ghost predicate Follows(s: State, e: Event, s': State) {
    Enabled(s, e) && s' == Step(s, e)
  }

  ghost predicate Stepped(s: State, s': State) {
    exists e :: Follows(s, e, s')
  }

  /** A run of the system with n workers. */
  ghost predicate IsRun(n: nat, states: seq<State>) {
    && states != [] && states[0] == Initial(n)
    && forall i :: 0 <= i < |states| - 1 ==> Stepped(states[i], states[i + 1])
  }

  // -- Counting -----------------------------------------------------------------------------------------

  function Times(s: seq<Worker>, w: Worker): (n: nat) {
    if s == [] then 0 else (if s[0] == w then 1 else 0) + Times(s[1..], w)
  }

  function FinishedBy(ms: seq<Msg>, w: Worker): (n: nat) {
    if ms == [] then 0 else (if ms[0] == Finished(w) then 1 else 0) + FinishedBy(ms[1..], w)
  }

  function JobsAt(ds: seq<Delivery>, w: Worker): (n: nat) {
    if ds == [] then 0 else (if ds[0].worker == w then 1 else 0) + JobsAt(ds[1..], w)
  }

  /** The jobs in a mailbox, in order. */
  function Waiting(ms: seq<Msg>): (jobs: seq<Job>) {
    if ms == [] then [] else (if ms[0].Read? then [ms[0].job] else []) + Waiting(ms[1..])
  }

  lemma {:induction false} TimesSum(a: seq<Worker>, b: seq<Worker>, w: Worker)
    ensures Times(a + b, w) == Times(a, w) + Times(b, w)
  {
    if a == [] {
      assert a + b == b;
    } else {
      assert (a + b)[1..] == a[1..] + b;
      TimesSum(a[1..], b, w);
    }
  }

  lemma {:induction false} FinishedSum(a: seq<Msg>, b: seq<Msg>, w: Worker)
    ensures FinishedBy(a + b, w) == FinishedBy(a, w) + FinishedBy(b, w)
  {
    if a == [] {
      assert a + b == b;
    } else {
      assert (a + b)[1..] == a[1..] + b;
      FinishedSum(a[1..], b, w);
    }
  }

  lemma {:induction false} JobsSum(a: seq<Delivery>, b: seq<Delivery>, w: Worker)
    ensures JobsAt(a + b, w) == JobsAt(a, w) + JobsAt(b, w)
  {
    if a == [] {
      assert a + b == b;
    } else {
      assert (a + b)[1..] == a[1..] + b;
      JobsSum(a[1..], b, w);
    }
  }

  lemma {:induction false} WaitingSum(a: seq<Msg>, b: seq<Msg>)
    ensures Waiting(a + b) == Waiting(a) + Waiting(b)
  {
    if a == [] {
      assert a + b == b;
    } else {
      var head := if a[0].Read? then [a[0].job] else [];
      assert (a + b)[0] == a[0] && (a + b)[1..] == a[1..] + b;
      WaitingSum(a[1..], b);
      Assoc(head, Waiting(a[1..]), Waiting(b));
    }
  }

  lemma {:induction false} ReadsOnly(jobs: seq<Job>, w: Worker)
    ensures Waiting(Reads(jobs)) == jobs && FinishedBy(Reads(jobs), w) == 0
  {
    if jobs != [] {
      assert Reads(jobs)[1..] == Reads(jobs[1..]);
      ReadsOnly(jobs[1..], w);
    }
  }

  lemma {:induction false} TimesIn(s: seq<Worker>, w: Worker)
    ensures Times(s, w) > 0 <==> w in s
  {
    if s != [] {
      TimesIn(s[1..], w);
    }
  }

  lemma {:induction false} TimesWithout(s: seq<Worker>, w: Worker, v: Worker)
    requires w in s
    ensures Times(Without(s, w), v) == Times(s, v) - if v == w then 1 else 0
  {
    if s[0] != w {
      TimesWithout(s[1..], w, v);
      assert ([s[0]] + Without(s[1..], w))[1..] == Without(s[1..], w);
    }
  }

  // -- The invariant ---------------------------------------------------------------------------------------

  /** What is known of worker w in a pool of n workers. */
  ghost predicate WorkerInv(s: State, n: nat, w: Worker) {
    && Times(s.pool.idle, w) + Times(s.pool.busy, w) == (if w < n then 1 else 0)
    && JobsAt(s.deliveries, w) + FinishedBy(s.mailbox, w) == Times(s.pool.busy, w)
  }

  ghost predicate JobsInv(s: State) {
    && s.dispatched + (s.pool.stash + Waiting(s.mailbox)) == s.arrived
    && multiset(s.dispatched) == multiset(JobsOf(s.deliveries)) + multiset(s.replied)
    && AllEnd(s.replied)
  }

  predicate AllEnd(jobs: seq<Job>) {
    forall i :: 0 <= i < |jobs| ==> jobs[i].ends
  }

  ghost predicate PoolInv(s: State) {
    && !s.crashed
    && (s.pool.allBusy <==> s.pool.idle == [])
    && (s.pool.stash != [] ==> s.pool.allBusy)
  }

  ghost predicate Inv(s: State, n: nat) {
    PoolInv(s) && JobsInv(s) && forall w :: WorkerInv(s, n, w)
  }

  // -- Every step keeps it ------------------------------------------------------------------------------------

  lemma {:induction false} InitialTimes(n: nat, w: Worker)
    ensures Times(seq(n, i => i), w) == if w < n then 1 else 0
  {
    if n > 0 {
      InitialTimes(n - 1, w);
      var ws := seq(n, i => i);
      assert ws == seq(n - 1, i => i) + [n - 1];
      TimesSum(seq(n - 1, i => i), [n - 1], w);
    }
  }

  lemma InitialInv(n: nat)
    requires n > 0
    ensures Inv(Initial(n), n)
  {
    forall w ensures WorkerInv(Initial(n), n, w) {
      InitialTimes(n, w);
    }
  }

  lemma SubmitInv(s: State, n: nat, job: Job)
    requires Inv(s, n)
    ensures Inv(Step(s, Submit(job)), n)
  {
    var s' := Step(s, Submit(job));
    forall w ensures WorkerInv(s', n, w) {
      assert WorkerInv(s, n, w);
      FinishedSum(s.mailbox, [Read(job)], w);
    }
    WaitingSum(s.mailbox, [Read(job)]);
    assert Waiting([Read(job)]) == [job];
    Assoc(s.pool.stash, Waiting(s.mailbox), [job]);
    Assoc(s.dispatched, s.pool.stash + Waiting(s.mailbox), [job]);
  }

  /** Taking one delivery out of a sequence. */
  lemma Removed(ds: seq<Delivery>, i: nat, w: Worker)
    requires i < |ds|
    ensures JobsAt(ds, w) == JobsAt(ds[..i] + ds[i + 1..], w) + if ds[i].worker == w then 1 else 0
  {
    var a, d, b := ds[..i], ds[i], ds[i + 1..];
    assert ds == a + ([d] + b);
    JobsSum(a, [d] + b, w);
    JobsSum([d], b, w);
    JobsSum(a, b, w);
  }

  lemma JobsOfSum(a: seq<Delivery>, b: seq<Delivery>)
    ensures JobsOf(a + b) == JobsOf(a) + JobsOf(b)
  {
  }

  lemma RemovedJob(ds: seq<Delivery>, i: nat)
    requires i < |ds|
    ensures multiset(JobsOf(ds)) == multiset(JobsOf(ds[..i] + ds[i + 1..])) + multiset{ds[i].job}
  {
    var a, d, b := ds[..i], ds[i], ds[i + 1..];
    assert ds == a + ([d] + b);
    JobsOfSum(a, [d] + b);
    JobsOfSum([d], b);
    JobsOfSum(a, b);
    assert JobsOf([d]) == [d.job];
  }

  lemma WorkerDoneInv(s: State, n: nat, i: nat)
    requires Inv(s, n) && Enabled(s, WorkerDone(i))
    ensures Inv(Step(s, WorkerDone(i)), n)
  {
    var s', d := Step(s, WorkerDone(i)), s.deliveries[i];
    forall w ensures WorkerInv(s', n, w) {
      assert WorkerInv(s, n, w);
      FinishedSum(s.mailbox, [Finished(d.worker)], w);
      Removed(s.deliveries, i, w);
    }
    WaitingSum(s.mailbox, [Finished(d.worker)]);
    assert Waiting(s'.mailbox) == Waiting(s.mailbox);
    RemovedJob(s.deliveries, i);
  }

  lemma StashKeepsJobs(s: State)
    requires PoolInv(s) && JobsInv(s) && s.mailbox != [] && s.mailbox[0].Read? && s.pool.allBusy
    ensures PoolInv(Coordinated(s)) && JobsInv(Coordinated(s))
  {
    var s' := Coordinated(s);
    assert s'.mailbox == s.mailbox[1..] && s'.dispatched == s.dispatched && s'.deliveries == s.deliveries;
    Assoc(s.pool.stash, [s.mailbox[0].job], Waiting(s.mailbox[1..]));
  }

  lemma DispatchKeepsJobs(s: State)
    requires PoolInv(s) && JobsInv(s) && s.mailbox != [] && s.mailbox[0].Read? && !s.pool.allBusy
    ensures PoolInv(Coordinated(s)) && JobsInv(Coordinated(s))
  {
    var s', job := Coordinated(s), s.mailbox[0].job;
    var rest := Waiting(s.mailbox[1..]);
    assert s'.mailbox == s.mailbox[1..] && s'.dispatched == s.dispatched + [job];
    assert JobsOf(s'.deliveries) == JobsOf(s.deliveries) + [job];
    assert s.pool.stash == [] && s'.pool.stash == [];
    assert s.pool.stash + ([job] + rest) == [job] + rest && s'.pool.stash + rest == rest;
    Assoc(s.dispatched, [job], rest);
  }

  lemma ReadInv(s: State, n: nat)
    requires Inv(s, n) && s.mailbox != [] && s.mailbox[0].Read?
    ensures Inv(Coordinated(s), n)
  {
    forall w ensures WorkerInv(Coordinated(s), n, w) {
      assert WorkerInv(s, n, w);
      ReadKeepsWorker(s, n, w);
    }
    if s.pool.allBusy {
      StashKeepsJobs(s);
    } else {
      DispatchKeepsJobs(s);
    }
  }

  lemma ReadKeepsWorker(s: State, n: nat, w: Worker)
    requires PoolInv(s) && WorkerInv(s, n, w) && s.mailbox != [] && s.mailbox[0].Read?
    ensures WorkerInv(Coordinated(s), n, w)
  {
    var s', p := Coordinated(s), s.pool;
    assert s'.mailbox == s.mailbox[1..];
    if p.allBusy {
      assert s'.deliveries == s.deliveries;
    } else {
      var last := p.idle[|p.idle| - 1];
      assert p.idle == p.idle[..|p.idle| - 1] + [last];
      TimesSum(p.idle[..|p.idle| - 1], [last], w);
      TimesSum(p.busy, [last], w);
      JobsSum(s.deliveries, [Delivery(last, s.mailbox[0].job)], w);
    }
  }

  lemma FinishedKeepsWorker(s: State, n: nat, w: Worker)
    requires WorkerInv(s, n, w) && s.mailbox != [] && s.mailbox[0].Finished?
    requires s.mailbox[0].worker in s.pool.busy
    ensures WorkerInv(Coordinated(s), n, w)
  {
    var s', p, v := Coordinated(s), s.pool, s.mailbox[0].worker;
    var unstashed := if p.allBusy then p.stash else [];
    TimesSum(p.idle, [v], w);
    TimesWithout(p.busy, v, w);
    ReadsOnly(unstashed, w);
    FinishedSum(Reads(unstashed), s.mailbox[1..], w);
    assert s'.deliveries == s.deliveries;
  }

  lemma FinishedKeepsJobs(s: State)
    requires PoolInv(s) && JobsInv(s) && s.mailbox != [] && s.mailbox[0].Finished?
    requires s.mailbox[0].worker in s.pool.busy
    ensures PoolInv(Coordinated(s)) && JobsInv(Coordinated(s))
  {
    var s', p := Coordinated(s), s.pool;
    var unstashed := if p.allBusy then p.stash else [];
    ReadsOnly(unstashed, s.mailbox[0].worker);
    WaitingSum(Reads(unstashed), s.mailbox[1..]);
    assert s'.dispatched == s.dispatched && s'.deliveries == s.deliveries;
    assert s'.pool.stash + Waiting(s'.mailbox) == p.stash + Waiting(s.mailbox);
  }

  lemma FinishedInv(s: State, n: nat)
    requires Inv(s, n) && s.mailbox != [] && s.mailbox[0].Finished?
    ensures Inv(Coordinated(s), n)
  {
    var v := s.mailbox[0].worker;
    assert WorkerInv(s, n, v);
    TimesIn(s.pool.busy, v);
    forall w ensures WorkerInv(Coordinated(s), n, w) {
      assert WorkerInv(s, n, w);
      FinishedKeepsWorker(s, n, w);
    }
    FinishedKeepsJobs(s);
  }

  lemma StepInv(s: State, n: nat, e: Event)
    requires Inv(s, n) && Enabled(s, e)
    ensures Inv(Step(s, e), n)
  {
    match e
    case Submit(job) => SubmitInv(s, n, job);
    case Coordinate => if s.mailbox[0].Read? { ReadInv(s, n); } else { FinishedInv(s, n); }
    case WorkerDone(i) => WorkerDoneInv(s, n, i);
  }

  lemma {:induction false} RunInv(n: nat, states: seq<State>)
    requires n > 0 && IsRun(n, states)
    ensures Inv(states[|states| - 1], n)
  {
    if |states| == 1 {
      InitialInv(n);
    } else {
      var front := states[..|states| - 1];
      RunInv(n, front);
      var s, s' := front[|front| - 1], states[|states| - 1];
      assert Stepped(s, s');
      var e :| Follows(s, e, s');
      StepInv(s, n, e);
    }
  }

  // -- What every reachable state satisfies ---------------------------------------------------------------------

  /** Each worker is either idle, or busy with exactly one job or one finished message in flight. */
  lemma PoolIsPartitioned(n: nat, states: seq<State>, w: Worker)
    requires n > 0 && IsRun(n, states)
    ensures var s := states[|states| - 1];
            && (w < n <==> w in s.pool.idle || w in s.pool.busy)
            && !(w in s.pool.idle && w in s.pool.busy)
            && Times(s.pool.idle, w) <= 1 && Times(s.pool.busy, w) <= 1
            && (w in s.pool.busy ==> JobsAt(s.deliveries, w) + FinishedBy(s.mailbox, w) == 1)
            && (w !in s.pool.busy ==> JobsAt(s.deliveries, w) == 0 && FinishedBy(s.mailbox, w) == 0)
  {
    RunInv(n, states);
    var s := states[|states| - 1];
    assert WorkerInv(s, n, w);
    TimesIn(s.pool.idle, w);
    TimesIn(s.pool.busy, w);
  }

  /** No message ever meets an empty pool. */
  lemma PoolNeverEmptyOnRead(n: nat, states: seq<State>)
    requires n > 0 && IsRun(n, states)
    ensures var s := states[|states| - 1];
            !s.crashed && (s.mailbox != [] ==> Defined(s.pool, s.mailbox[0])) && (s.pool.allBusy <==> s.pool.idle == [])
  {
    RunInv(n, states);
  }

  /** Jobs are dispatched in order of arrival, and none is lost or duplicated. */
  lemma JobsAreConserved(n: nat, states: seq<State>)
    requires n > 0 && IsRun(n, states)
    ensures var s := states[|states| - 1];
            && s.dispatched <= s.arrived
            && multiset(s.arrived) == multiset(s.replied) + multiset(JobsOf(s.deliveries)) +
                 multiset(s.pool.stash) + multiset(Waiting(s.mailbox))
  {
    RunInv(n, states);
    var s := states[|states| - 1];
    assert s.arrived == s.dispatched + (s.pool.stash + Waiting(s.mailbox));
  }

  // -- Without new jobs, every run comes to rest ------------------------------------------------------------------

  /** Only a new job could change anything. */
  ghost predicate Rests(s: State) {
    forall e: Event :: !e.Submit? ==> !Enabled(s, e)
  }

  ghost predicate Works(s: State, s': State) {
    (exists e: Event :: !e.Submit? && Follows(s, e, s')) || (Rests(s) && s' == s)
  }

  function Unsent(s: State): (n: nat) {
    |s.pool.stash| + |Waiting(s.mailbox)|
  }

  lemma {:induction false} WaitingLength(ms: seq<Msg>)
    ensures |Waiting(ms)| <= |ms|
  {
    if ms != [] {
      WaitingLength(ms[1..]);
    }
  }

  /** How many finished messages are in a mailbox. */
  function Notices(ms: seq<Msg>): (n: nat) {
    WaitingLength(ms);
    |ms| - |Waiting(ms)|
  }

  ghost predicate Less(s': State, s: State) {
    var all', all := Unsent(s') + |s'.deliveries|, Unsent(s) + |s.deliveries|;
    || all' < all
    || (all' == all && Unsent(s') < Unsent(s))
    || (all' == all && Unsent(s') == Unsent(s) && Notices(s'.mailbox) < Notices(s.mailbox))
    || (all' == all && Unsent(s') == Unsent(s) && Notices(s'.mailbox) == Notices(s.mailbox) && |s'.mailbox| < |s.mailbox|)
  }

  lemma CoordinateRanks(s: State)
    requires PoolInv(s) && s.mailbox != []
    ensures Less(Coordinated(s), s)
  {
    var s', m := Coordinated(s), s.mailbox[0];
    var e := React(s.pool, m);
    ReadsOnly(e.unstashed, 0);
    WaitingSum(Reads(e.unstashed), s.mailbox[1..]);
  }

  lemma WorkRanks(s: State, e: Event)
    requires PoolInv(s) && Enabled(s, e) && !e.Submit?
    ensures Less(Step(s, e), s)
  {
    if e.WorkerDone? {
      WaitingSum(s.mailbox, [Finished(s.deliveries[e.i].worker)]);
    } else {
      CoordinateRanks(s);
    }
  }

  lemma {:induction false} OneJobEach(ds: seq<Delivery>, i: nat, j: nat)
    requires j < i < |ds| && ds[i].worker == ds[j].worker
    ensures JobsAt(ds, ds[i].worker) >= 2
  {
    if j > 0 {
      OneJobEach(ds[1..], i - 1, j - 1);
    } else {
      JobHere(ds[1..], i - 1);
    }
  }

  lemma {:induction false} JobHere(ds: seq<Delivery>, i: nat)
    requires i < |ds|
    ensures JobsAt(ds, ds[i].worker) >= 1
  {
    if i > 0 {
      JobHere(ds[1..], i - 1);
    }
  }

  /** At rest, only jobs without end are with workers, and a job waits only if every worker has one. */
  lemma RestMeans(s: State, n: nat)
    requires n > 0 && Inv(s, n) && Rests(s)
    ensures s.mailbox == []
    ensures forall i :: 0 <= i < |s.deliveries| ==> !s.deliveries[i].job.ends
    ensures s.pool.stash != [] ==> forall w :: 0 <= w < n ==> JobsAt(s.deliveries, w) == 1
  {
    assert !Enabled(s, Coordinate);
    forall i | 0 <= i < |s.deliveries| ensures !s.deliveries[i].job.ends {
      assert !Enabled(s, WorkerDone(i));
      assert WorkerInv(s, n, s.deliveries[i].worker);
      forall j | 0 <= j < i ensures s.deliveries[j].worker != s.deliveries[i].worker {
        if s.deliveries[j].worker == s.deliveries[i].worker {
          OneJobEach(s.deliveries, i, j);
        }
      }
    }
    forall w: nat | w < n && s.pool.stash != [] ensures JobsAt(s.deliveries, w) == 1 {
      assert WorkerInv(s, n, w);
      TimesIn(s.pool.idle, w);
    }
  }

  predicate Served(s: State) {
    multiset(s.replied) == multiset(s.arrived)
  }

  /** At rest, every job has its reply exactly if every job ends. */
  lemma RestServedIff(s: State, n: nat)
    requires n > 0 && Inv(s, n) && Rests(s)
    ensures Served(s) <==> AllEnd(s.arrived)
  {
    RestMeans(s, n);
    assert s.arrived == s.dispatched + (s.pool.stash + Waiting(s.mailbox));
    assert WorkerInv(s, n, 0);
    forall i | 0 <= i < |s.deliveries| ensures JobsOf(s.deliveries)[i] in s.arrived {
      assert JobsOf(s.deliveries)[i] in multiset(s.dispatched);
    }
    if AllEnd(s.arrived) {
      assert s.deliveries == [] && s.pool.stash == [];
    }
    if Served(s) {
      forall i | 0 <= i < |s.arrived| ensures s.arrived[i].ends {
        assert s.arrived[i] in multiset(s.replied);
      }
    }
  }

  /** Whatever the scheduler does, the system comes to rest. */
  lemma {:induction false} ComesToRest(n: nat, trace: nat -> State, i: nat)
    requires n > 0 && Inv(trace(i), n) && forall k: nat :: k >= i ==> Works(trace(k), trace(k + 1))
    ensures exists k: nat :: k >= i && Rests(trace(k))
    decreases Unsent(trace(i)) + |trace(i).deliveries|, Unsent(trace(i)), Notices(trace(i).mailbox), |trace(i).mailbox|
  {
    var s, s' := trace(i), trace(i + 1);
    if !Rests(s) {
      assert Works(s, s');
      var e: Event :| !e.Submit? && Follows(s, e, s');
      StepInv(s, n, e);
      WorkRanks(s, e);
      ComesToRest(n, trace, i + 1);
    }
  }

  lemma {:induction false} TraceInv(n: nat, trace: nat -> State, k: nat)
    requires n > 0 && Inv(trace(0), n) && forall j: nat :: Works(trace(j), trace(j + 1))
    ensures Inv(trace(k), n) && trace(k).arrived == trace(0).arrived
  {
    if k > 0 {
      TraceInv(n, trace, k - 1);
      var s, s' := trace(k - 1), trace(k - 1 + 1);
      assert Works(s, s');
      if !Rests(s) {
        var e: Event :| !e.Submit? && Follows(s, e, s');
        StepInv(s, n, e);
      }
    }
  }

  /**
   From every reachable state and under every schedule: if no new jobs come, the system comes to
   rest, and it does so with every job replied exactly if every job ends.
   */
  lemma EveryJobIsServedIff(n: nat, past: seq<State>, trace: nat -> State)
    requires n > 0 && IsRun(n, past) && trace(0) == past[|past| - 1]
    requires forall k: nat :: Works(trace(k), trace(k + 1))
    ensures exists k: nat :: Rests(trace(k))
    ensures AllEnd(trace(0).arrived) <==> exists k: nat :: Rests(trace(k)) && Served(trace(k))
  {
    RunInv(n, past);
    ComesToRest(n, trace, 0);
    forall k: nat | Rests(trace(k)) ensures Served(trace(k)) <==> AllEnd(trace(0).arrived) {
      TraceInv(n, trace, k);
      RestServedIff(trace(k), n);
    }
  }

  // -- Jobs without end ---------------------------------------------------------------------------------------

  lemma RunExtends(n: nat, states: seq<State>, e: Event)
    requires IsRun(n, states) && Enabled(states[|states| - 1], e)
    ensures IsRun(n, states + [Step(states[|states| - 1], e)])
  {
    var s := states[|states| - 1];
    assert Follows(s, e, Step(s, e));
    var longer := states + [Step(s, e)];
    forall i | 0 <= i < |longer| - 1 ensures Stepped(longer[i], longer[i + 1]) {
      if i < |states| - 1 {
        assert Stepped(states[i], states[i + 1]);
      }
    }
  }

  /** k of the n workers can be occupied for ever. */
  lemma {:induction false} Occupied(n: nat, k: nat) returns (states: seq<State>)
    requires k <= n && n > 0
    ensures IsRun(n, states)
    ensures var s := states[|states| - 1];
            && s.mailbox == [] && s.pool.stash == [] && s.replied == [] && |s.arrived| == k == |s.deliveries|
            && |s.pool.idle| == n - k && (s.pool.allBusy <==> k == n)
            && forall i :: 0 <= i < k ==> !s.deliveries[i].job.ends
  {
    if k == 0 {
      states := [Initial(n)];
    } else {
      states := Occupied(n, k - 1);
      var s := states[|states| - 1];
      var s1 := Step(s, Submit(Job(0, false)));
      RunExtends(n, states, Submit(Job(0, false)));
      states := states + [s1];
      RunExtends(n, states, Coordinate);
      assert Reads([]) + s1.mailbox[1..] == [];
      states := states + [Step(s1, Coordinate)];
    }
  }

  /** One job without end keeps its worker; as many as there are workers starve every job behind them. */
  lemma EndlessJobsStarve(n: nat, job: Job) returns (states: seq<State>)
    requires n > 0
    ensures IsRun(n, states)
    ensures var s := states[|states| - 1]; Rests(s) && s.pool.stash == [job] && s.replied == []
  {
    states := Occupied(n, n);
    var s := states[|states| - 1];
    var s1 := Step(s, Submit(job));
    RunExtends(n, states, Submit(job));
    states := states + [s1];
    RunExtends(n, states, Coordinate);
    assert Reads([]) + s1.mailbox[1..] == [];
    states := states + [Step(s1, Coordinate)];
  }
}
