/**
 Attachables of an actor: callbacks in a singly linked list that run once when the actor terminates.
 */
module Attachables {
  import opened Basics

  // -- Lists, independent of how they are stored ------------------------------------

  function Count<T>(s: seq<T>, f: T -> bool): (n: nat) {
    if s == [] then 0 else (if f(s[0]) then 1 else 0) + Count(s[1..], f)
  }

  function RemoveAll<T>(s: seq<T>, f: T -> bool): (r: seq<T>) {
    if s == [] then [] else (if f(s[0]) then [] else [s[0]]) + RemoveAll(s[1..], f)
  }

  function RemoveFirst<T>(s: seq<T>, f: T -> bool): (r: seq<T>) {
    if s == [] then [] else if f(s[0]) then s[1..] else [s[0]] + RemoveFirst(s[1..], f)
  }

  /** What detach_impl returns and leaves, for each setting of its two flags. */
  function DetachCount<T>(s: seq<T>, f: T -> bool, stopOnHit: bool): (n: nat) {
    if stopOnHit && Count(s, f) > 0 then 1 else Count(s, f)
  }

  function DetachRest<T>(s: seq<T>, f: T -> bool, stopOnHit: bool, dryRun: bool): (r: seq<T>) {
    if dryRun then s else if stopOnHit then RemoveFirst(s, f) else RemoveAll(s, f)
  }

  /** Half-way through detach_impl: the first k entries are settled and stay, `count` hits were seen. */
  ghost predicate Detaching<T>(all: seq<T>, s: seq<T>, k: nat, count: nat, f: T -> bool, stopOnHit: bool, dryRun: bool)
  {
    && k <= |s|
    && count + Count(s[k..], f) == Count(all, f)
    && (stopOnHit ==> count == 0)
    && (if dryRun then s == all
        else if stopOnHit then s == all && s[..k] + RemoveFirst(s[k..], f) == RemoveFirst(all, f)
        else s[..k] + RemoveAll(s[k..], f) == RemoveAll(all, f))
  }

  lemma DetachStart<T>(all: seq<T>, f: T -> bool, stopOnHit: bool, dryRun: bool)
    ensures Detaching(all, all, 0, 0, f, stopOnHit, dryRun)
  {
    assert all[0..] == all;
    assert all[..0] + RemoveFirst(all, f) == RemoveFirst(all, f);
    assert all[..0] + RemoveAll(all, f) == RemoveAll(all, f);
  }

  lemma DetachMiss<T>(all: seq<T>, s: seq<T>, k: nat, count: nat, f: T -> bool, stopOnHit: bool, dryRun: bool)
    requires Detaching(all, s, k, count, f, stopOnHit, dryRun) && k < |s| && !f(s[k])
    ensures Detaching(all, s, k + 1, count, f, stopOnHit, dryRun)
  {
    var tail := s[k..];
    assert tail[0] == s[k] && tail[1..] == s[k + 1..];
    Shift(s, k, RemoveFirst(s[k + 1..], f));
    Shift(s, k, RemoveAll(s[k + 1..], f));
  }

  lemma Shift<T>(s: seq<T>, k: nat, rest: seq<T>)
    requires k < |s|
    ensures s[..k] + ([s[k]] + rest) == s[..k + 1] + rest
  {
  }

  lemma DetachHit<T>(all: seq<T>, s: seq<T>, k: nat, count: nat, f: T -> bool, stopOnHit: bool, dryRun: bool)
    requires Detaching(all, s, k, count, f, stopOnHit, dryRun) && k < |s| && f(s[k])
    ensures !stopOnHit && dryRun ==> Detaching(all, s, k + 1, count + 1, f, stopOnHit, dryRun)
    ensures !stopOnHit && !dryRun ==> Detaching(all, s[..k] + s[k + 1..], k, count + 1, f, stopOnHit, dryRun)
    ensures stopOnHit ==>
              && DetachCount(all, f, stopOnHit) == 1
              && DetachRest(all, f, stopOnHit, dryRun) == if dryRun then s else s[..k] + s[k + 1..]
  {
    var tail := s[k..];
    assert tail[0] == s[k] && tail[1..] == s[k + 1..];
    if !stopOnHit && !dryRun {
      var r := s[..k] + s[k + 1..];
      assert r[..k] == s[..k] && r[k..] == s[k + 1..];
      assert [] + RemoveAll(s[k + 1..], f) == RemoveAll(s[k + 1..], f);
    }
  }

  lemma DetachStep<T>(all: seq<T>, s: seq<T>, k: nat, count: nat, f: T -> bool, stopOnHit: bool, dryRun: bool)
    requires Detaching(all, s, k, count, f, stopOnHit, dryRun) && k < |s|
    ensures !f(s[k]) ==> Detaching(all, s, k + 1, count, f, stopOnHit, dryRun)
    ensures f(s[k]) && !stopOnHit && dryRun ==> Detaching(all, s, k + 1, count + 1, f, stopOnHit, dryRun)
    ensures f(s[k]) && !stopOnHit && !dryRun ==>
              Detaching(all, s[..k] + s[k + 1..], k, count + 1, f, stopOnHit, dryRun)
    ensures f(s[k]) && stopOnHit ==>
              && DetachCount(all, f, stopOnHit) == 1
              && DetachRest(all, f, stopOnHit, dryRun) == if dryRun then s else s[..k] + s[k + 1..]
  {
    if f(s[k]) {
      DetachHit(all, s, k, count, f, stopOnHit, dryRun);
    } else {
      DetachMiss(all, s, k, count, f, stopOnHit, dryRun);
    }
  }

  lemma DetachEnd<T>(all: seq<T>, s: seq<T>, count: nat, f: T -> bool, stopOnHit: bool, dryRun: bool)
    requires Detaching(all, s, |s|, count, f, stopOnHit, dryRun)
    ensures count == DetachCount(all, f, stopOnHit) && s == DetachRest(all, f, stopOnHit, dryRun)
  {
  }

  // -- The linked list -----------------------------------------------------------------

  datatype ObserveType = Monitor | Link

  /** A functor is anonymous; an observer is a default_attachable. */
  datatype Entry = Functor(id: nat) | Observer(observer: nat, kind: ObserveType)

  datatype Token = ObserveToken(observer: nat, kind: ObserveType)

  predicate Matches(e: Entry, what: Token) {
    e.Observer? && e.observer == what.observer && e.kind == what.kind
  }

  class Attachable {
    const entry: Entry
    var next: Attachable?

    constructor (entry: Entry)
      ensures this.entry == entry && next == null
    {
      this.entry := entry;
      next := null;
    }
  }

  function NodeMatches(what: Token): Attachable -> bool {
    (a: Attachable) => Matches(a.entry, what)
  }

  /** head points to the first of the given nodes and each node to the one after it. */
  ghost predicate Linked(head: Attachable?, nodes: seq<Attachable>)
    reads nodes
  {
    && (if nodes == [] then head == null else head == nodes[0] && nodes[|nodes| - 1].next == null)
    && (forall i :: 0 <= i < |nodes| - 1 ==> nodes[i].next == nodes[i + 1])
    && (forall i, j :: 0 <= i < j < |nodes| ==> nodes[i] != nodes[j])
  }

  /** The entries stored in a list of nodes. */
  function EntriesOf(nodes: seq<Attachable>): (r: seq<Entry>)
    ensures |r| == |nodes|
  {
    if nodes == [] then [] else [nodes[0].entry] + EntriesOf(nodes[1..])
  }

  lemma {:induction false} CountEntries(nodes: seq<Attachable>, what: Token)
    ensures Count(EntriesOf(nodes), EntryMatches(what)) == Count(nodes, NodeMatches(what))
    ensures EntriesOf(RemoveFirst(nodes, NodeMatches(what))) == RemoveFirst(EntriesOf(nodes), EntryMatches(what))
  {
    if nodes != [] {
      CountEntries(nodes[1..], what);
    }
  }

  class Actor {
    const id: nat
    var terminated: bool
    var failState: int
    var head: Attachable?
    ghost var nodes: seq<Attachable>
    ghost var repr: set<Attachable>

    ghost predicate Valid()
      reads this, repr
    {
      && (forall i :: 0 <= i < |nodes| ==> nodes[i] in repr)
      && Linked(head, nodes) && (terminated ==> nodes == [])
    }

    ghost function Entries(): seq<Entry>
      reads this
    {
      EntriesOf(nodes)
    }

    constructor (id: nat)
      ensures Valid() && !terminated && nodes == [] && this.id == id && repr == {}
    {
      this.id := id;
      terminated, failState, head, nodes, repr := false, 0, null, [], {};
    }

    method AttachImpl(a: Attachable)
      requires Valid() && !terminated && a !in nodes
      modifies `head, `nodes, `repr, a
      ensures Valid() && nodes == [a] + old(nodes) && repr == old(repr) + {a}
    {
      a.next := head;
      head := a;
      nodes, repr := [a] + nodes, repr + {a};
    }

    /** Attaches a callback, or calls it at once with the recorded fail state. */
    method Attach(a: Attachable) returns (calledNow: bool, reason: int)
      requires Valid() && a !in nodes
      modifies `head, `nodes, `repr, a
      ensures Valid() && calledNow == terminated
      ensures calledNow ==> reason == failState && nodes == old(nodes)
      ensures !calledNow ==> nodes == [a] + old(nodes)
    {
      calledNow, reason := terminated, failState;
      if !terminated {
        AttachImpl(a);
      }
    }

    /** Takes the node in the slot after `prev` (the head slot if null) out of the list. */
    method Unlink(prev: Attachable?, ghost k: nat) returns (slot: Attachable?)
      requires Valid() && k < |nodes|
      requires if k == 0 then prev == null else prev == nodes[k - 1]
      modifies `head, `nodes, repr
      ensures Valid() && nodes == old(nodes)[..k] + old(nodes)[k + 1..]
      ensures slot == if k < |nodes| then nodes[k] else null
    {
      assert k > 0 ==> nodes[k - 1].next == nodes[k - 1 + 1];
      var removed := if prev == null then head else prev.next;
      ghost var before := nodes;
      assert k + 1 < |nodes| ==> removed.next == nodes[k + 1];
      if prev == null {
        head := removed.next;
      } else {
        prev.next := removed.next;
      }
      removed.next := null;
      nodes := nodes[..k] + nodes[k + 1..];
      forall i | 0 <= i < |nodes| - 1
        ensures nodes[i].next == nodes[i + 1]
      {
        assert nodes[i] == if i < k then before[i] else before[i + 1];
        assert nodes[i + 1] == if i + 1 < k then before[i + 1] else before[i + 2];
      }
      slot := if prev == null then head else prev.next;
      assert k > 0 && k < |nodes| ==> nodes[k - 1].next == nodes[k - 1 + 1];
    }

    method Advance(slot: Attachable, ghost k: nat) returns (next: Attachable?)
      requires Valid() && k < |nodes| && slot == nodes[k]
      ensures next == if k + 1 < |nodes| then nodes[k + 1] else null
    {
      next := slot.next;
    }

    /** The pointer to the current slot is modelled by the node that holds it, null for the head. */
    method DetachImpl(what: Token, stopOnHit: bool, dryRun: bool) returns (count: nat)
      requires Valid()
      modifies `head, `nodes, repr
      ensures Valid()
      ensures count == DetachCount(old(nodes), NodeMatches(what), stopOnHit)
      ensures nodes == DetachRest(old(nodes), NodeMatches(what), stopOnHit, dryRun)
    {
      ghost var f := NodeMatches(what);
      ghost var all, k := nodes, 0;
      var prev: Attachable? := null;
      var slot := head;
      count := 0;
      DetachStart(all, f, stopOnHit, dryRun);
      while slot != null
        invariant Valid() && k <= |nodes|
        invariant if k == 0 then prev == null else prev == nodes[k - 1]
        invariant slot == if k < |nodes| then nodes[k] else null
        invariant Detaching(all, nodes, k, count, f, stopOnHit, dryRun)
        decreases |nodes| - k
      {
        DetachStep(all, nodes, k, count, f, stopOnHit, dryRun);
        if Matches(slot.entry, what) {
          count := count + 1;
          if !dryRun {
            slot := Unlink(prev, k);
          } else {
            var next := Advance(slot, k);
            k, prev, slot := k + 1, slot, next;
          }
          if stopOnHit {
            return;
          }
        } else {
          var next := Advance(slot, k);
          k, prev, slot := k + 1, slot, next;
        }
      }
      DetachEnd(all, nodes, count, f, stopOnHit, dryRun);
    }

    method AttachLink(x: Actor)
      requires Valid() && !terminated
      modifies `head, `nodes, `repr
      ensures Valid() && fresh(repr - old(repr))
      ensures Entries() == [Observer(x.id, Link)] + old(Entries())
    {
      var tmp := new Attachable(Observer(x.id, Link));
      AttachImpl(tmp);
      assert nodes[1..] == old(nodes);
    }

    /** Adds a link entry for x unless there is one; `exit` is the reason of an exit message to x. */
    method AddBacklink(x: Actor) returns (success: bool, exit: Option<int>)
      requires Valid()
      modifies `head, `nodes, `repr, repr
      ensures Valid() && fresh(repr - old(repr))
      ensures exit == if terminated then Some(failState) else None
      ensures success <==> !terminated && Count(old(Entries()), EntryMatches(ObserveToken(x.id, Link))) == 0
      ensures Entries() == if success then [Observer(x.id, Link)] + old(Entries()) else old(Entries())
    {
      success, exit := false, if terminated then Some(failState) else None;
      if !terminated {
        CountEntries(nodes, ObserveToken(x.id, Link));
        var known := DetachImpl(ObserveToken(x.id, Link), true, true);
        if known == 0 {
          AttachLink(x);
          success := true;
        }
      }
    }

    /** The joined critical section of add_link; the results are the reasons of the exit messages it sends. */
    method AddLink(x: Actor) returns (exitToX: Option<int>, exitToSelf: Option<int>)
      requires Valid() && x.Valid() && x != this && repr !! x.repr
      modifies `head, `nodes, `repr, repr, x`head, x`nodes, x`repr, x.repr
      ensures Valid() && x.Valid() && repr !! x.repr
      ensures exitToX == if terminated then Some(failState) else None
      ensures exitToSelf == if !terminated && x.terminated then Some(x.failState) else None
      ensures var link := !terminated && !x.terminated
                          && Count(old(x.Entries()), EntryMatches(ObserveToken(id, Link))) == 0;
              && x.Entries() == (if link then [Observer(id, Link)] + old(x.Entries()) else old(x.Entries()))
              && Entries() == (if link then [Observer(x.id, Link)] + old(Entries()) else old(Entries()))
    {
      exitToX, exitToSelf := None, None;
      if terminated {
        exitToX := Some(failState);
      } else {
        var success;
        success, exitToSelf := x.AddBacklink(this);
        assert Valid() && repr !! x.repr && nodes == old(nodes);
        if success {
          AttachLink(x);
        }
      }
    }

    method RemoveLink(x: Actor)
      requires Valid() && x.Valid() && x != this && repr !! x.repr
      modifies `head, `nodes, repr, x`head, x`nodes, x.repr
      ensures Valid() && x.Valid() && repr !! x.repr
      ensures x.Entries() == RemoveFirst(old(x.Entries()), EntryMatches(ObserveToken(id, Link)))
      ensures Entries() == RemoveFirst(old(Entries()), EntryMatches(ObserveToken(x.id, Link)))
    {
      CountEntries(x.nodes, ObserveToken(id, Link));
      CountEntries(nodes, ObserveToken(x.id, Link));
      var removed := x.DetachImpl(ObserveToken(id, Link), true, false);
      removed := DetachImpl(ObserveToken(x.id, Link), true, false);
    }

    /** Runs the callbacks of the first cleanup only, each once, in list order, with one fail state. */
    method Cleanup(reason: int) returns (cleaned: bool, called: seq<Attachable>)
      requires Valid()
      modifies this
      ensures Valid() && terminated && nodes == []
      ensures cleaned == !old(terminated)
      ensures cleaned ==> failState == reason && called == old(nodes)
      ensures !cleaned ==> failState == old(failState) && called == []
    {
      called := [];
      if terminated {
        return false, called;
      }
      failState, terminated := reason, true;
      ghost var all, k := nodes, 0;
      var i := head;
      head, nodes := null, [];
      while i != null
        invariant Linked(old(head), all) && k <= |all| && called == all[..k]
        invariant i == if k < |all| then all[k] else null
        decreases |all| - k
      {
        called := called + [i];
        i := i.next;
        k := k + 1;
      }
      cleaned := true;
    }
  }

  // -- Every attachable is called exactly once -------------------------------------------

  /**
   The attachables of one actor under concurrent use. cleanup moves the list aside under the lock and
   calls it afterwards; attach on a terminated actor copies the fail state under the lock and calls
   afterwards. Both calls are steps of their own.
   */
  datatype Life = Life(
    terminated: bool, failState: int,
    list: seq<Entry>,               // attachables_head_
    draining: seq<Entry>,           // moved aside by cleanup, not called yet
    late: seq<(Entry, int)>,        // attach after termination, with the copied fail state, not called yet
    detached: seq<Entry>,
    called: seq<(Entry, int)>,
    attached: seq<Entry>,           // everything ever passed to attach
    cleanups: nat)                  // calls of cleanup that returned true

  const NEW_LIFE := Life(false, 0, [], [], [], [], [], [], 0)

  datatype LifeEvent =
    | AttachOne(entry: Entry)
    | Detach(what: Token, stopOnHit: bool)
    | CleanUp(reason: int)
    | CallDraining
    | CallLate

  function Hits<T>(s: seq<T>, f: T -> bool, stopOnHit: bool): (r: seq<T>) {
    if s == [] then []
    else if !f(s[0]) then Hits(s[1..], f, stopOnHit)
    else if stopOnHit then [s[0]]
    else [s[0]] + Hits(s[1..], f, stopOnHit)
  }

  function EntryMatches(what: Token): Entry -> bool {
    (e: Entry) => Matches(e, what)
  }

  function LifeStep(l: Life, e: LifeEvent): (l': Life) {
    match e
    case AttachOne(entry) =>
      if l.terminated then l.(late := l.late + [(entry, l.failState)], attached := l.attached + [entry])
      else l.(list := [entry] + l.list, attached := l.attached + [entry])
    case Detach(what, stopOnHit) =>
      l.(list := DetachRest(l.list, EntryMatches(what), stopOnHit, false),
         detached := l.detached + Hits(l.list, EntryMatches(what), stopOnHit))
    case CleanUp(reason) =>
      if l.terminated then l
      else l.(terminated := true, failState := reason, list := [], draining := l.list, cleanups := l.cleanups + 1)
    case CallDraining =>
      if l.draining == [] then l
      else l.(draining := l.draining[1..], called := l.called + [(l.draining[0], l.failState)])
    case CallLate =>
      if l.late == [] then l
      else l.(late := l.late[1..], called := l.called + [l.late[0]])
  }

  function LifeRun(l: Life, es: seq<LifeEvent>): (l': Life)
    decreases |es|
  {
    if es == [] then l else LifeRun(LifeStep(l, es[0]), es[1..])
  }

  function Firsts(s: seq<(Entry, int)>): (r: seq<Entry>)
    ensures |r| == |s| && forall i :: 0 <= i < |s| ==> r[i] == s[i].0
  {
    seq(|s|, i requires 0 <= i < |s| => s[i].0)
  }

  lemma FirstsConcat(s: seq<(Entry, int)>, t: seq<(Entry, int)>)
    ensures Firsts(s + t) == Firsts(s) + Firsts(t)
  {
  }

  lemma FirstsSnoc(s: seq<(Entry, int)>, p: (Entry, int), x: Entry)
    ensures Occurrences(Firsts(s + [p]), x) == Occurrences(Firsts(s), x) + if p.0 == x then 1 else 0
  {
    FirstsConcat(s, [p]);
    assert Firsts([p]) == [p.0];
    OccurrencesConcat(Firsts(s), [p.0], x);
  }

  lemma FirstsHead(s: seq<(Entry, int)>, x: Entry)
    requires s != []
    ensures Occurrences(Firsts(s), x) == Occurrences(Firsts(s[1..]), x) + if s[0].0 == x then 1 else 0
  {
    assert Firsts(s) == [s[0].0] + Firsts(s[1..]);
    OccurrencesConcat([s[0].0], Firsts(s[1..]), x);
  }

  lemma {:induction false} DetachSplits<T>(s: seq<T>, f: T -> bool, stopOnHit: bool)
    ensures multiset(s) == multiset(DetachRest(s, f, stopOnHit, false)) + multiset(Hits(s, f, stopOnHit))
  {
    if s != [] {
      DetachSplits(s[1..], f, stopOnHit);
      assert s == [s[0]] + s[1..];
    }
  }

  function Occurrences(s: seq<Entry>, x: Entry): nat {
    multiset(s)[x]
  }

  lemma OccurrencesConcat(s: seq<Entry>, t: seq<Entry>, x: Entry)
    ensures Occurrences(s + t, x) == Occurrences(s, x) + Occurrences(t, x)
  {
  }

  /** Where the attachments of x are: waiting, moved aside, due, detached or called. */
  ghost predicate AccountedFor(l: Life, x: Entry) {
    Occurrences(l.attached, x) ==
      Occurrences(l.list, x) + Occurrences(l.draining, x) + Occurrences(Firsts(l.late), x)
      + Occurrences(l.detached, x) + Occurrences(Firsts(l.called), x)
  }

  ghost predicate Accounted(l: Life) {
    forall x :: AccountedFor(l, x)
  }

  ghost predicate LifeInv(l: Life) {
    && Accounted(l)
    && (l.terminated ==> l.list == [] && l.cleanups == 1)
    && (!l.terminated ==> l.draining == [] && l.late == [] && l.called == [] && l.cleanups == 0)
    && (forall i :: 0 <= i < |l.late| ==> l.late[i].1 == l.failState)
    && (forall i :: 0 <= i < |l.called| ==> l.called[i].1 == l.failState)
  }

  lemma AttachAccounted(l: Life, entry: Entry, x: Entry)
    requires AccountedFor(l, x)
    ensures AccountedFor(LifeStep(l, AttachOne(entry)), x)
  {
    OccurrencesConcat(l.attached, [entry], x);
    if l.terminated {
      FirstsSnoc(l.late, (entry, l.failState), x);
    } else {
      OccurrencesConcat([entry], l.list, x);
    }
  }

  lemma DetachAccounted(l: Life, what: Token, stopOnHit: bool, x: Entry)
    requires AccountedFor(l, x)
    ensures AccountedFor(LifeStep(l, Detach(what, stopOnHit)), x)
  {
    DetachSplits(l.list, EntryMatches(what), stopOnHit);
    OccurrencesConcat(l.detached, Hits(l.list, EntryMatches(what), stopOnHit), x);
  }

  lemma CallAccounted(l: Life, e: LifeEvent, x: Entry)
    requires AccountedFor(l, x) && (e == CallDraining || e == CallLate)
    ensures AccountedFor(LifeStep(l, e), x)
  {
    if e == CallDraining && l.draining != [] {
      var d, rest := l.draining[0], l.draining[1..];
      FirstsSnoc(l.called, (d, l.failState), x);
      assert l.draining == [d] + rest;
      OccurrencesConcat([d], rest, x);
    } else if e == CallLate && l.late != [] {
      FirstsSnoc(l.called, l.late[0], x);
      FirstsHead(l.late, x);
    }
  }

  lemma StepAccounted(l: Life, e: LifeEvent, x: Entry)
    requires AccountedFor(l, x) && (!l.terminated ==> l.draining == [])
    ensures AccountedFor(LifeStep(l, e), x)
  {
    match e
    case AttachOne(entry) => AttachAccounted(l, entry, x);
    case Detach(what, stopOnHit) => DetachAccounted(l, what, stopOnHit, x);
    case CleanUp(_) =>
    case _ => CallAccounted(l, e, x);
  }

  lemma StepLifeInv(l: Life, e: LifeEvent)
    requires LifeInv(l)
    ensures LifeInv(LifeStep(l, e))
  {
    forall x
      ensures AccountedFor(LifeStep(l, e), x)
    {
      assert AccountedFor(l, x);
      StepAccounted(l, e, x);
    }
  }

  lemma {:induction false} LifeRunInv(l: Life, es: seq<LifeEvent>)
    requires LifeInv(l)
    ensures LifeInv(LifeRun(l, es))
    ensures l.terminated ==> LifeRun(l, es).terminated && LifeRun(l, es).failState == l.failState
    decreases |es|
  {
    if es != [] {
      StepLifeInv(l, es[0]);
      LifeRunInv(LifeStep(l, es[0]), es[1..]);
    }
  }

  /** The entries with one reason. */
  function Due(entries: seq<Entry>, reason: int): (r: seq<(Entry, int)>)
    ensures |r| == |entries| && forall i :: 0 <= i < |r| ==> r[i] == (entries[i], reason)
  {
    seq(|entries|, i requires 0 <= i < |entries| => (entries[i], reason))
  }

  lemma DueCons(e: Entry, rest: seq<Entry>, reason: int, called: seq<(Entry, int)>)
    ensures called + [(e, reason)] + Due(rest, reason) == called + Due([e] + rest, reason)
  {
    assert Due([e] + rest, reason) == [(e, reason)] + Due(rest, reason);
  }

  lemma {:induction false} DrainingIsCalled(l: Life) returns (es: seq<LifeEvent>)
    ensures |es| == |l.draining|
    ensures LifeRun(l, es) == l.(draining := [], called := l.called + Due(l.draining, l.failState))
    decreases |l.draining|
  {
    if l.draining == [] {
      es := [];
      assert l.called + Due([], l.failState) == l.called;
    } else {
      var rest := DrainingIsCalled(LifeStep(l, CallDraining));
      es := [CallDraining] + rest;
      assert es[1..] == rest;
      assert [l.draining[0]] + l.draining[1..] == l.draining;
      DueCons(l.draining[0], l.draining[1..], l.failState, l.called);
    }
  }

  lemma {:induction false} LateIsCalled(l: Life) returns (es: seq<LifeEvent>)
    ensures |es| == |l.late|
    ensures LifeRun(l, es) == l.(late := [], called := l.called + l.late)
    decreases |l.late|
  {
    if l.late == [] {
      es := [];
      assert l.called + [] == l.called;
    } else {
      var rest := LateIsCalled(LifeStep(l, CallLate));
      es := [CallLate] + rest;
      assert es[1..] == rest;
      assert l.called + [l.late[0]] + l.late[1..] == l.called + l.late;
    }
  }

  lemma {:induction false} LifeRunConcat(l: Life, es: seq<LifeEvent>, more: seq<LifeEvent>)
    ensures LifeRun(l, es + more) == LifeRun(LifeRun(l, es), more)
    decreases |es|
  {
    if es == [] {
      assert es + more == more;
    } else {
      LifeRunConcat(LifeStep(l, es[0]), es[1..], more);
      assert (es + more)[1..] == es[1..] + more;
    }
  }

  /** The calls that are due can be made, first those moved aside by cleanup in list order. */
  lemma DueCallsAreMade(l: Life) returns (es: seq<LifeEvent>)
    ensures |es| == |l.draining| + |l.late|
    ensures LifeRun(l, es) == l.(draining := [], late := [], called := l.called + Due(l.draining, l.failState) + l.late)
  {
    var first := DrainingIsCalled(l);
    var second := LateIsCalled(LifeRun(l, first));
    LifeRunConcat(l, first, second);
    es := first + second;
  }

  function AttachAll(entries: seq<Entry>): (es: seq<LifeEvent>) {
    if entries == [] then [] else AttachAll(entries[..|entries| - 1]) + [AttachOne(entries[|entries| - 1])]
  }

  /**
   A live actor keeps the attachable that came last in front, so cleanup calls them in reverse order; a
   terminated one queues them in order with the recorded fail state.
   */
  lemma {:induction false} AttachOrder(l: Life, entries: seq<Entry>, i: nat)
    requires i < |entries|
    ensures var l' := LifeRun(l, AttachAll(entries));
            var n := |entries|;
            && l'.terminated == l.terminated && l'.failState == l.failState && l'.attached == l.attached + entries
            && (!l.terminated ==> |l'.list| == n + |l.list| && l'.list[n - 1 - i] == entries[i] && l'.list[n..] == l.list)
            && (l.terminated ==> l'.late == l.late + Due(entries, l.failState) && l'.list == l.list)
  {
    var n := |entries| - 1;
    var front := entries[..n];
    LifeRunConcat(l, AttachAll(front), [AttachOne(entries[n])]);
    var mid := LifeRun(l, AttachAll(front));
    SingleEvent(mid, AttachOne(entries[n]));
    if n > 0 {
      AttachOrder(l, front, if i < n then i else 0);
    } else {
      assert front == [] && AttachAll(front) == [] && mid == l;
      assert Due(entries, l.failState) == [(entries[0], l.failState)];
    }
    assert Due(entries, l.failState) == Due(front, l.failState) + [(entries[n], l.failState)];
    assert l.attached + entries == l.attached + front + [entries[n]];
  }

  lemma SingleEvent(l: Life, e: LifeEvent)
    ensures LifeRun(l, [e]) == LifeStep(l, e)
  {
    assert [e][1..] == [];
    assert LifeRun(LifeStep(l, e), []) == LifeStep(l, e);
  }

  /** The first cleanup calls exactly the attachables of the list, in list order and with its reason. */
  lemma CleanupCallsTheList(l: Life, reason: int) returns (es: seq<LifeEvent>)
    requires !l.terminated && l.draining == [] && l.late == []
    ensures LifeRun(LifeStep(l, CleanUp(reason)), es) ==
              l.(terminated := true, failState := reason, list := [], called := l.called + Due(l.list, reason),
                 cleanups := l.cleanups + 1)
  {
    es := DueCallsAreMade(LifeStep(l, CleanUp(reason)));
    assert l.called + Due(l.list, reason) + [] == l.called + Due(l.list, reason);
  }

  /**
   cleanup takes effect at most once, and every attachable that was attached, before or after the
   termination, and not detached is called exactly once, with the one recorded fail state.
   */
  lemma CalledExactlyOnce(es: seq<LifeEvent>)
    ensures var l := LifeRun(NEW_LIFE, es);
            && l.cleanups <= 1 && (l.terminated <==> l.cleanups == 1)
            && (forall i :: 0 <= i < |l.called| ==> l.called[i].1 == l.failState)
            && (!l.terminated ==> l.called == [])
            && (l.terminated && l.draining == [] && l.late == [] ==>
                  multiset(l.attached) == multiset(l.detached) + multiset(Firsts(l.called)))
  {
    LifeRunInv(NEW_LIFE, es);
    var l := LifeRun(NEW_LIFE, es);
    forall x
      ensures l.terminated && l.draining == [] && l.late == [] ==>
                multiset(l.attached)[x] == multiset(l.detached)[x] + multiset(Firsts(l.called))[x]
    {
      assert AccountedFor(l, x);
    }
  }
}
