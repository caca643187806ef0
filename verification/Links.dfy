/**
 Links between actors: each side holds an entry for the other side in its list of attachables. The
 operations run in a critical section of both actors, so each is one step on the system.
 */
module Links {
  import opened Basics
  import opened Attachables

  /**
   The strong references of an actor. When the last one of an actor that is not terminated goes away,
   a weak reference cannot be upgraded until the count is bumped to 1 for the cleanup.
   */
  datatype Handles = Held | Zero | Bumped

  datatype Peer = Peer(terminated: bool, handles: Handles, failState: int, entries: seq<Entry>)

  datatype MessageKind = Exit | Down
  datatype Message = Message(kind: MessageKind, to: nat, from: nat, reason: int)

  datatype System = System(peers: seq<Peer>, sent: seq<Message>)
  {
    predicate Has(a: nat) {
      a < |peers|
    }

    predicate Live(a: nat)
      requires Has(a)
    {
      !peers[a].terminated
    }

    /** A weak reference to a can be upgraded. */
    predicate Strong(a: nat)
      requires Has(a)
    {
      peers[a].handles != Zero
    }

    /** Not terminated, and never without a strong reference so far. */
    predicate Sound(a: nat)
      requires Has(a)
    {
      Live(a) && peers[a].handles == Held
    }

    function Attach(a: nat, e: Entry): System
      requires Has(a)
    {
      this.(peers := peers[a := peers[a].(entries := [e] + peers[a].entries)])
    }

    function Detach(a: nat, what: Token, stopOnHit: bool): System
      requires Has(a)
    {
      this.(peers := peers[a := peers[a].(entries := DetachRest(peers[a].entries, EntryMatches(what), stopOnHit, false))])
    }

    function Send(messages: seq<Message>): System {
      this.(sent := sent + messages)
    }
  }

  function LinkTo(a: nat): Token {
    ObserveToken(a, Link)
  }

  /** How many link entries a holds for b. */
  function Links(s: System, a: nat, b: nat): (n: nat)
    requires s.Has(a)
  {
    Count(s.peers[a].entries, EntryMatches(LinkTo(b)))
  }

  /** default_attachable::actor_exited for each entry; functors send nothing. */
  function Notifications(entries: seq<Entry>, from: nat, reason: int): (r: seq<Message>) {
    if entries == [] then []
    else
      (match entries[0]
       case Functor(_) => []
       case Observer(to, Monitor) => [Message(Down, to, from, reason)]
       case Observer(to, Link) => [Message(Exit, to, from, reason)])
      + Notifications(entries[1..], from, reason)
  }

  function AddBacklink(s: System, self: nat, x: nat): (r: (System, bool))
    requires s.Has(self) && s.Has(x)
  {
    if s.peers[self].terminated then
      (s.Send([Message(Exit, x, self, s.peers[self].failState)]), false)
    else if DetachCount(s.peers[self].entries, EntryMatches(LinkTo(x)), true) == 0 then
      (s.Attach(self, Observer(x, Link)), true)
    else (s, false)
  }

  function AddLink(s: System, self: nat, x: nat): (s': System)
    requires s.Has(self) && s.Has(x)
  {
    if s.peers[self].terminated then s.Send([Message(Exit, x, self, s.peers[self].failState)])
    else
      var (s1, added) := AddBacklink(s, x, self);
      if added then s1.Attach(self, Observer(x, Link)) else s1
  }

  function RemoveLink(s: System, self: nat, x: nat): (s': System)
    requires s.Has(self) && s.Has(x)
  {
    s.Detach(x, LinkTo(self), true).Detach(self, LinkTo(x), true)
  }

  datatype Event =
    | Linked(self: nat, x: nat)
    | Unlinked(self: nat, x: nat)
    | UnlinkedExpired(self: nat, x: nat)     // x cannot be upgraded, only the own entry is removed
    | Monitored(self: nat, x: nat)           // x observes self
    | Demonitored(self: nat, x: nat)
    | FunctorAttached(self: nat, id: nat)
    | Terminated(self: nat, reason: int)
    | LastRelease(self: nat)
    | Bump(self: nat)

  /** link_to and unlink_from ignore the actor itself; nobody observes itself. */
  predicate Enabled(s: System, e: Event) {
    && s.Has(e.self)
    && match e
       case LastRelease(self) => s.peers[self].handles == Held || (s.peers[self].handles == Bumped && !s.Live(self))
       case Bump(self) => !s.Strong(self) && s.Live(self)
       case FunctorAttached(self, _) => s.Strong(self)
       case Terminated(self, _) => s.Strong(self)
       case UnlinkedExpired(self, x) => s.Strong(self) && s.Has(x) && x != self && !s.Strong(x)
       case Linked(self, x) => s.Strong(self) && s.Has(x) && x != self && s.Strong(x)
       case Unlinked(self, x) => s.Strong(self) && s.Has(x) && x != self && s.Strong(x)
       case _ => s.Strong(e.self) && s.Has(e.x) && e.x != e.self
  }

  function SetHandles(s: System, self: nat, h: Handles): (s': System)
    requires s.Has(self)
  {
    s.(peers := s.peers[self := s.peers[self].(handles := h)])
  }

  /** attach: on a terminated actor the attachable is called at once. */
  function AttachOrCall(s: System, self: nat, e: Entry): (s': System)
    requires s.Has(self)
  {
    if s.peers[self].terminated then s.Send(Notifications([e], self, s.peers[self].failState)) else s.Attach(self, e)
  }

  function Step(s: System, e: Event): (s': System)
    requires Enabled(s, e)
  {
    match e
    case Linked(self, x) => AddLink(s, self, x)
    case Unlinked(self, x) => RemoveLink(s, self, x)
    case UnlinkedExpired(self, x) => s.Detach(self, LinkTo(x), true)
    case Monitored(self, x) => AttachOrCall(s, self, Observer(x, Monitor))
    case Demonitored(self, x) => s.Detach(self, ObserveToken(x, Monitor), false)
    case FunctorAttached(self, id) => AttachOrCall(s, self, Functor(id))
    case Terminated(self, reason) =>
      if s.peers[self].terminated then s
      else System(s.peers[self := Peer(true, s.peers[self].handles, reason, [])],
                  s.sent + Notifications(s.peers[self].entries, self, reason))
    case LastRelease(self) => SetHandles(s, self, Zero)
    case Bump(self) => SetHandles(s, self, Bumped)
  }

  ghost predicate Reaches(s: System, run: seq<Event>, t: System)
    decreases |run|
  {
    if run == [] then s == t else Enabled(s, run[0]) && Reaches(Step(s, run[0]), run[1..], t)
  }

  function Initial(n: nat): System {
    System(seq(n, _ => Peer(false, Held, 0, [])), [])
  }

  // -- Counting ------------------------------------------------------------------------

  lemma CountCons(e: Entry, s: seq<Entry>, f: Entry -> bool)
    ensures Count([e] + s, f) == (if f(e) then 1 else 0) + Count(s, f)
  {
    assert ([e] + s)[1..] == s;
  }

  lemma {:induction false} CountRemoved(s: seq<Entry>, f: Entry -> bool, g: Entry -> bool)
    requires forall x :: f(x) ==> !g(x)
    ensures Count(RemoveFirst(s, f), g) == Count(s, g) == Count(RemoveAll(s, f), g)
  {
    if s != [] {
      CountRemoved(s[1..], f, g);
      if !f(s[0]) {
        CountCons(s[0], RemoveFirst(s[1..], f), g);
        CountCons(s[0], RemoveAll(s[1..], f), g);
      } else {
        assert [] + RemoveAll(s[1..], f) == RemoveAll(s[1..], f);
      }
    }
  }

  lemma {:induction false} CountRemovedFirst(s: seq<Entry>, f: Entry -> bool)
    ensures Count(RemoveFirst(s, f), f) == if Count(s, f) == 0 then 0 else Count(s, f) - 1
  {
    if s != [] && !f(s[0]) {
      CountRemovedFirst(s[1..], f);
      CountCons(s[0], RemoveFirst(s[1..], f), f);
    }
  }

  lemma DetachLinks(s: System, a: nat, what: Token, stopOnHit: bool, p: nat, q: nat)
    requires s.Has(a) && s.Has(p)
    requires what.kind == Monitor || stopOnHit
    ensures Links(s.Detach(a, what, stopOnHit), p, q) ==
              if p == a && what == LinkTo(q) && Links(s, p, q) > 0 then Links(s, p, q) - 1 else Links(s, p, q)
  {
    if p == a {
      var f, g := EntryMatches(what), EntryMatches(LinkTo(q));
      if what == LinkTo(q) {
        CountRemovedFirst(s.peers[a].entries, f);
      } else {
        CountRemoved(s.peers[a].entries, f, g);
      }
    }
  }

  lemma AttachLinks(s: System, a: nat, e: Entry, p: nat, q: nat)
    requires s.Has(a) && s.Has(p)
    ensures Links(s.Attach(a, e), p, q) == Links(s, p, q) + if p == a && e == Observer(q, Link) then 1 else 0
  {
    if p == a {
      CountCons(e, s.peers[a].entries, EntryMatches(LinkTo(q)));
    }
  }

  // -- The invariant ---------------------------------------------------------------------

  /**
   A sound actor holds at most one entry for another actor, the same number as a sound other side and
   no more than a live one.
   */
  ghost predicate PairOk(s: System, a: nat, b: nat)
    requires s.Has(a) && s.Has(b)
  {
    s.Sound(a) ==>
      && Links(s, a, b) <= 1
      && (s.Live(b) ==> Links(s, a, b) <= Links(s, b, a))
      && (s.Sound(b) ==> Links(s, a, b) == Links(s, b, a))
  }

  ghost predicate Inv(s: System) {
    && (forall a :: 0 <= a < |s.peers| && s.peers[a].terminated ==> s.peers[a].entries == [])
    && (forall a, b :: 0 <= a < |s.peers| && 0 <= b < |s.peers| && a != b ==> PairOk(s, a, b))
  }

  predicate SamePair(a: nat, b: nat, p: nat, q: nat) {
    (p == a && q == b) || (p == b && q == a)
  }

  ghost predicate SameStatus(s: System, t: System) {
    |t.peers| == |s.peers| &&
    forall k :: 0 <= k < |s.peers| ==>
      t.peers[k].terminated == s.peers[k].terminated && t.peers[k].handles == s.peers[k].handles
  }

  /** The effect of add_link on the number of link entries: both sides get one, or none does. */
  lemma LinkedCounts(s: System, a: nat, b: nat, p: nat, q: nat)
    requires s.Has(a) && s.Has(b) && a != b && s.Has(p) && p != q
    ensures SameStatus(s, AddLink(s, a, b))
    ensures Links(AddLink(s, a, b), p, q) ==
              Links(s, p, q) + if s.Live(a) && s.Live(b) && Links(s, b, a) == 0 && SamePair(a, b, p, q) then 1 else 0
  {
    if s.Live(a) && s.Live(b) && Links(s, b, a) == 0 {
      var s1 := s.Attach(b, Observer(a, Link));
      AttachLinks(s, b, Observer(a, Link), p, q);
      AttachLinks(s1, a, Observer(b, Link), p, q);
    }
  }

  lemma UnlinkedCounts(s: System, a: nat, b: nat, p: nat, q: nat)
    requires s.Has(a) && s.Has(b) && a != b && s.Has(p) && p != q
    ensures SameStatus(s, RemoveLink(s, a, b))
    ensures Links(RemoveLink(s, a, b), p, q) ==
              if SamePair(a, b, p, q) && Links(s, p, q) > 0 then Links(s, p, q) - 1 else Links(s, p, q)
  {
    DetachLinks(s, b, LinkTo(a), true, p, q);
    DetachLinks(s.Detach(b, LinkTo(a), true), a, LinkTo(b), true, p, q);
  }

  lemma LinkPair(s: System, e: Event, p: nat, q: nat)
    requires Enabled(s, e) && s.Has(p) && s.Has(q) && p != q && (e.Linked? || e.Unlinked? || e.UnlinkedExpired?)
    requires PairOk(s, p, q) && PairOk(s, q, p)
    ensures SameStatus(s, Step(s, e)) && PairOk(Step(s, e), p, q)
  {
    var a, b := e.self, e.x;
    if e.Linked? {
      LinkedCounts(s, a, b, p, q);
      LinkedCounts(s, a, b, q, p);
    } else if e.Unlinked? {
      UnlinkedCounts(s, a, b, p, q);
      UnlinkedCounts(s, a, b, q, p);
    } else {
      DetachLinks(s, a, LinkTo(b), true, p, q);
      DetachLinks(s, a, LinkTo(b), true, q, p);
    }
  }

  /** Observers that are no links, and functors, leave all link entries alone. */
  lemma OtherCounts(s: System, e: Event, p: nat, q: nat)
    requires Enabled(s, e) && s.Has(p) && (e.Monitored? || e.Demonitored? || e.FunctorAttached?)
    ensures SameStatus(s, Step(s, e)) && Links(Step(s, e), p, q) == Links(s, p, q)
  {
    match e
    case Monitored(a, b) => AttachLinks(s, a, Observer(b, Monitor), p, q);
    case Demonitored(a, b) => DetachLinks(s, a, ObserveToken(b, Monitor), false, p, q);
    case FunctorAttached(a, id) => AttachLinks(s, a, Functor(id), p, q);
  }

  lemma StepPair(s: System, e: Event, p: nat, q: nat)
    requires Enabled(s, e) && s.Has(p) && s.Has(q) && p != q && PairOk(s, p, q) && PairOk(s, q, p)
    ensures |Step(s, e).peers| == |s.peers| && PairOk(Step(s, e), p, q)
  {
    if e.Linked? || e.Unlinked? || e.UnlinkedExpired? {
      LinkPair(s, e, p, q);
    } else if e.Monitored? || e.Demonitored? || e.FunctorAttached? {
      OtherCounts(s, e, p, q);
      OtherCounts(s, e, q, p);
    }
  }

  lemma StepInv(s: System, e: Event)
    requires Inv(s) && Enabled(s, e)
    ensures Inv(Step(s, e)) && |Step(s, e).peers| == |s.peers|
  {
    StepTerminated(s, e);
    forall p, q | 0 <= p < |s.peers| && 0 <= q < |s.peers| && p != q
      ensures PairOk(Step(s, e), p, q)
    {
      assert PairOk(s, p, q) && PairOk(s, q, p);
      StepPair(s, e, p, q);
    }
  }

  lemma StepTerminated(s: System, e: Event)
    requires Inv(s) && Enabled(s, e)
    ensures |Step(s, e).peers| == |s.peers|
    ensures forall a :: 0 <= a < |s.peers| && Step(s, e).peers[a].terminated ==> Step(s, e).peers[a].entries == []
  {
  }

  lemma {:induction false} RunInv(s: System, run: seq<Event>, t: System)
    requires Inv(s) && Reaches(s, run, t)
    ensures Inv(t) && |t.peers| == |s.peers|
    decreases |run|
  {
    if run != [] {
      StepInv(s, run[0]);
      RunInv(Step(s, run[0]), run[1..], t);
    }
  }

  // -- What links promise ------------------------------------------------------------------

  /** Two sound actors hold equally many link entries for each other, and never more than one. */
  lemma LinksAreSymmetric(n: nat, run: seq<Event>, s: System, a: nat, b: nat)
    requires Reaches(Initial(n), run, s) && a < n && b < n && a != b
    ensures s.Has(a) && s.Has(b)
    ensures s.Sound(a) ==> Links(s, a, b) <= 1
    ensures s.Sound(a) && s.Live(b) ==> Links(s, a, b) <= Links(s, b, a)
    ensures s.Sound(a) && s.Sound(b) ==> Links(s, a, b) == Links(s, b, a)
    ensures !s.Live(a) ==> Links(s, a, b) == 0
  {
    RunInv(Initial(n), run, s);
    assert PairOk(s, a, b) && PairOk(s, b, a);
  }

  /**
   add_link links two sound sides, or tells the other side about a terminated one. Between any two
   live actors it leaves both sides linked exactly if it did not find an entry on one side only.
   */
  lemma AddLinkLinksOrExits(n: nat, run: seq<Event>, s: System, a: nat, b: nat)
    requires Reaches(Initial(n), run, s) && a < n && b < n && a != b
    ensures s.Has(a) && s.Has(b) && AddLink(s, a, b).Has(a) && AddLink(s, a, b).Has(b)
    ensures s.Sound(a) && s.Sound(b) ==>
              Links(AddLink(s, a, b), a, b) == 1 == Links(AddLink(s, a, b), b, a)
    ensures s.Live(a) && s.Live(b) ==>
              && AddLink(s, a, b).sent == s.sent
              && ((Links(AddLink(s, a, b), a, b) > 0 && Links(AddLink(s, a, b), b, a) > 0) <==>
                  (Links(s, b, a) == 0 || Links(s, a, b) > 0))
    ensures !s.Live(a) ==> AddLink(s, a, b) == s.Send([Message(Exit, b, a, s.peers[a].failState)])
    ensures s.Live(a) && !s.Live(b) ==> AddLink(s, a, b) == s.Send([Message(Exit, a, b, s.peers[b].failState)])
  {
    LinksAreSymmetric(n, run, s, a, b);
    LinkedCounts(s, a, b, a, b);
    LinkedCounts(s, a, b, b, a);
  }

  /** Exit messages to b among the given messages. */
  function Exits(messages: seq<Message>, b: nat): (r: seq<Message>) {
    if messages == [] then []
    else (if messages[0].kind == Exit && messages[0].to == b then [messages[0]] else []) + Exits(messages[1..], b)
  }

  function Copies(k: nat, m: Message): (r: seq<Message>)
    ensures |r| == k && forall i :: 0 <= i < k ==> r[i] == m
  {
    seq(k, _ => m)
  }

  lemma ExitsCons(m: Message, rest: seq<Message>, b: nat)
    ensures Exits([m] + rest, b) == (if m.kind == Exit && m.to == b then [m] else []) + Exits(rest, b)
  {
    assert ([m] + rest)[1..] == rest;
  }

  lemma {:induction false} ExitsOfEntries(entries: seq<Entry>, from: nat, reason: int, b: nat)
    ensures Exits(Notifications(entries, from, reason), b) ==
              Copies(Count(entries, EntryMatches(LinkTo(b))), Message(Exit, b, from, reason))
  {
    if entries != [] {
      var rest := Notifications(entries[1..], from, reason);
      ExitsOfEntries(entries[1..], from, reason, b);
      match entries[0]
      case Functor(_) => assert [] + rest == rest;
      case Observer(to, Monitor) => ExitsCons(Message(Down, to, from, reason), rest, b);
      case Observer(to, Link) => ExitsCons(Message(Exit, to, from, reason), rest, b);
    }
  }

  /**
   A terminating actor sends another one as many exit messages as it holds link entries for it: one or
   none while it is sound, and one exactly if a sound other side is linked too.
   */
  lemma ExitReachesLinkedOnce(n: nat, run: seq<Event>, s: System, a: nat, reason: int, b: nat)
    requires Reaches(Initial(n), run, s) && a < n && b < n && a != b
    requires s.Has(a) && Enabled(s, Terminated(a, reason))
    ensures s.Has(b)
    ensures s.Live(a) ==>
              exists news ::
                && Step(s, Terminated(a, reason)).sent == s.sent + news
                && Exits(news, b) == Copies(Links(s, a, b), Message(Exit, b, a, reason))
    ensures s.Sound(a) ==> Links(s, a, b) <= 1
    ensures s.Sound(a) && s.Sound(b) ==> Links(s, a, b) == Links(s, b, a)
    ensures !s.Live(a) ==> Step(s, Terminated(a, reason)) == s
  {
    LinksAreSymmetric(n, run, s, a, b);
    var news := Notifications(s.peers[a].entries, a, reason);
    ExitsOfEntries(s.peers[a].entries, a, reason, b);
  }

  // -- Monitors ------------------------------------------------------------------------------

  /** How many monitor entries a holds for b. */
  function Monitors(s: System, a: nat, b: nat): (n: nat)
    requires s.Has(a)
  {
    Count(s.peers[a].entries, EntryMatches(ObserveToken(b, Monitor)))
  }

  /** Down messages to b among the given messages. */
  function Downs(messages: seq<Message>, b: nat): (r: seq<Message>) {
    if messages == [] then []
    else (if messages[0].kind == Down && messages[0].to == b then [messages[0]] else []) + Downs(messages[1..], b)
  }

  lemma DownsCons(m: Message, rest: seq<Message>, b: nat)
    ensures Downs([m] + rest, b) == (if m.kind == Down && m.to == b then [m] else []) + Downs(rest, b)
  {
    assert ([m] + rest)[1..] == rest;
  }

  lemma {:induction false} DownsOfEntries(entries: seq<Entry>, from: nat, reason: int, b: nat)
    ensures Downs(Notifications(entries, from, reason), b) ==
              Copies(Count(entries, EntryMatches(ObserveToken(b, Monitor))), Message(Down, b, from, reason))
  {
    if entries != [] {
      var rest := Notifications(entries[1..], from, reason);
      DownsOfEntries(entries[1..], from, reason, b);
      match entries[0]
      case Functor(_) => assert [] + rest == rest;
      case Observer(to, Monitor) => DownsCons(Message(Down, to, from, reason), rest, b);
      case Observer(to, Link) => DownsCons(Message(Exit, to, from, reason), rest, b);
    }
  }

  /** A terminating actor sends every observer one down message for each of its monitors. */
  lemma DownReachesMonitors(s: System, a: nat, reason: int, b: nat)
    requires Enabled(s, Terminated(a, reason)) && s.Live(a)
    ensures exists news ::
              && Step(s, Terminated(a, reason)).sent == s.sent + news
              && Downs(news, b) == Copies(Monitors(s, a, b), Message(Down, b, a, reason))
    ensures Monitors(Step(s, Terminated(a, reason)), a, b) == 0
  {
    var news := Notifications(s.peers[a].entries, a, reason);
    DownsOfEntries(s.peers[a].entries, a, reason, b);
  }

  lemma {:induction false} CountRemovedAll(s: seq<Entry>, f: Entry -> bool)
    ensures Count(RemoveAll(s, f), f) == 0
  {
    if s != [] {
      CountRemovedAll(s[1..], f);
      if f(s[0]) {
        assert [] + RemoveAll(s[1..], f) == RemoveAll(s[1..], f);
      } else {
        CountCons(s[0], RemoveAll(s[1..], f), f);
      }
    }
  }

  /** Monitoring adds one entry, or is answered at once by a terminated actor; demonitoring removes all. */
  lemma MonitorCounts(s: System, a: nat, b: nat, q: nat)
    requires Enabled(s, Monitored(a, b))
    ensures s.Live(a) ==> Monitors(Step(s, Monitored(a, b)), a, q) == Monitors(s, a, q) + if q == b then 1 else 0
    ensures !s.Live(a) ==> Step(s, Monitored(a, b)) == s.Send([Message(Down, b, a, s.peers[a].failState)])
    ensures Monitors(Step(s, Demonitored(a, b)), a, q) == if q == b then 0 else Monitors(s, a, q)
  {
    var f, g := EntryMatches(ObserveToken(b, Monitor)), EntryMatches(ObserveToken(q, Monitor));
    CountCons(Observer(b, Monitor), s.peers[a].entries, g);
    if q == b {
      CountRemovedAll(s.peers[a].entries, f);
    } else {
      CountRemoved(s.peers[a].entries, f, g);
    }
    var one, m := [Observer(b, Monitor)], Message(Down, b, a, s.peers[a].failState);
    assert one[1..] == [] && Notifications(one[1..], a, m.reason) == [];
    assert Notifications(one, a, m.reason) == [m] + [] == [m];
  }

  /** A functor goes to the front of the list of a live actor, and sends nothing. */
  lemma FunctorsAreKept(s: System, a: nat, id: nat)
    requires Enabled(s, FunctorAttached(a, id))
    ensures s.Live(a) ==> Step(s, FunctorAttached(a, id)).peers[a].entries == [Functor(id)] + s.peers[a].entries
    ensures Step(s, FunctorAttached(a, id)).sent == s.sent
  {
    var one := [Functor(id)];
    assert one[1..] == [] && Notifications(one, a, s.peers[a].failState) == [];
    assert s.sent + [] == s.sent;
  }

  /** Linking and unlinking leave all monitors alone. */
  lemma LinksLeaveMonitors(s: System, a: nat, b: nat, p: nat, q: nat)
    requires s.Has(a) && s.Has(b) && s.Has(p)
    ensures Monitors(AddLink(s, a, b), p, q) == Monitors(s, p, q)
    ensures Monitors(RemoveLink(s, a, b), p, q) == Monitors(s, p, q)
  {
    var g := EntryMatches(ObserveToken(q, Monitor));
    forall e: seq<Entry>, x: nat
      ensures Count([Observer(x, Link)] + e, g) == Count(e, g)
      ensures Count(RemoveFirst(e, EntryMatches(LinkTo(x))), g) == Count(e, g)
    {
      CountCons(Observer(x, Link), e, g);
      CountRemoved(e, EntryMatches(LinkTo(x)), g);
    }
  }

  // -- The unlink that finds no strong reference -----------------------------------------------

  /**
   Unlinking from an actor that has lost its last strong reference and is not cleaned up yet removes
   one side only: linking again does not restore it, and the cleanup sends an exit message all the same.
   */
  lemma ExpiredUnlinkKeepsOtherSide(n: nat, run: seq<Event>, s: System, a: nat, b: nat, reason: int)
    requires Reaches(Initial(n), run, s) && a < n && b < n && a != b && s.Has(a) && s.Has(b)
    requires s.Sound(a) && s.Live(b) && !s.Strong(b) && Links(s, a, b) == 1
    ensures Enabled(s, UnlinkedExpired(a, b))
    ensures var t := Step(s, UnlinkedExpired(a, b));
            && t.Has(a) && t.Has(b) && t.Live(a) && t.Live(b)
            && Links(t, a, b) == 0 && Links(t, b, a) == Links(s, b, a) > 0
            && Enabled(t, Bump(b))
            && var u := Step(t, Bump(b));
               && Enabled(u, Linked(a, b)) && Step(u, Linked(a, b)) == u
               && Enabled(u, Terminated(b, reason))
               && exists news ::
                    && Step(u, Terminated(b, reason)).sent == u.sent + news
                    && Exits(news, a) == Copies(Links(s, b, a), Message(Exit, a, b, reason))
  {
    LinksAreSymmetric(n, run, s, a, b);
    var t := Step(s, UnlinkedExpired(a, b));
    DetachLinks(s, a, LinkTo(b), true, a, b);
    DetachLinks(s, a, LinkTo(b), true, b, a);
    var u := Step(t, Bump(b));
    assert Links(u, b, a) == Links(t, b, a);
    var news := Notifications(u.peers[b].entries, b, reason);
    ExitsOfEntries(u.peers[b].entries, b, reason, a);
  }

  lemma {:induction false} ReachesNext(s: System, run: seq<Event>, t: System, e: Event)
    requires Reaches(s, run, t) && Enabled(t, e)
    ensures Reaches(s, run + [e], Step(t, e))
    decreases |run|
  {
    if run == [] {
      assert Reaches(Step(t, e), [], Step(t, e));
      assert (run + [e])[1..] == [];
    } else {
      ReachesNext(Step(s, run[0]), run[1..], t, e);
      assert (run + [e])[1..] == run[1..] + [e];
    }
  }

  /** Some run leads to two live actors with the given handles whose entries for each other differ. */
  ghost predicate CanDiffer(n: nat, a: nat, b: nat, ha: Handles, hb: Handles) {
    exists run, s :: Reaches(Initial(n), run, s) && Differ(s, a, b, ha, hb)
  }

  ghost predicate Differ(s: System, a: nat, b: nat, ha: Handles, hb: Handles) {
    && s.Has(a) && s.Has(b) && s.Live(a) && s.Live(b)
    && s.peers[a].handles == ha && s.peers[b].handles == hb
    && Links(s, a, b) != Links(s, b, a)
  }

  /** The entries of two live actors for each other can differ exactly if one of them is not sound. */
  lemma SymmetryIff(n: nat, a: nat, b: nat, ha: Handles, hb: Handles)
    requires a < n && b < n && a != b
    ensures CanDiffer(n, a, b, ha, hb) <==> !(ha == Held && hb == Held)
  {
    if ha == Held && hb == Held {
      forall run, s | Reaches(Initial(n), run, s) ensures !Differ(s, a, b, ha, hb) {
        LinksAreSymmetric(n, run, s, a, b);
      }
    } else if hb != Held {
      var _, _ := OneSided(n, a, b, ha, hb);
    } else {
      var run, s := OneSided(n, b, a, hb, ha);
      assert Differ(s, a, b, ha, hb);
    }
  }

  lemma OneSided(n: nat, a: nat, b: nat, ha: Handles, hb: Handles) returns (run: seq<Event>, s: System)
    requires a < n && b < n && a != b && hb != Held
    ensures Reaches(Initial(n), run, s) && Differ(s, a, b, ha, hb)
  {
    run, s := Expire(n, a, b);
    run, s := ChangeHandles(n, run, s, b, hb);
    run, s := ChangeHandles(n, run, s, a, ha);
  }

  lemma Expire(n: nat, a: nat, b: nat) returns (run: seq<Event>, s: System)
    requires a < n && b < n && a != b
    ensures Reaches(Initial(n), run, s) && Differ(s, a, b, Held, Zero)
  {
    var s0 := Initial(n);
    assert Reaches(s0, [], s0);
    ReachesNext(s0, [], s0, Linked(a, b));
    var s1 := Step(s0, Linked(a, b));
    LinkedCounts(s0, a, b, a, b);
    LinkedCounts(s0, a, b, b, a);
    ReachesNext(s0, [] + [Linked(a, b)], s1, LastRelease(b));
    var s2 := Step(s1, LastRelease(b));
    assert Links(s2, a, b) == Links(s1, a, b) && Links(s2, b, a) == Links(s1, b, a);
    run := [] + [Linked(a, b)] + [LastRelease(b)];
    ReachesNext(s0, run, s2, UnlinkedExpired(a, b));
    DetachLinks(s2, a, LinkTo(b), true, a, b);
    DetachLinks(s2, a, LinkTo(b), true, b, a);
    run, s := run + [UnlinkedExpired(a, b)], Step(s2, UnlinkedExpired(a, b));
  }

  /** A live actor can lose its handles, and then be bumped. */
  lemma ChangeHandles(n: nat, run: seq<Event>, s: System, p: nat, h: Handles) returns (run': seq<Event>, s': System)
    requires Reaches(Initial(n), run, s) && s.Has(p) && s.Live(p)
    requires s.peers[p].handles == Held || (s.peers[p].handles == Zero && h != Held)
    ensures Reaches(Initial(n), run', s') && s' == SetHandles(s, p, h)
  {
    run', s' := run, s;
    if s.peers[p].handles == Held && h != Held {
      ReachesNext(Initial(n), run', s', LastRelease(p));
      run', s' := run' + [LastRelease(p)], Step(s', LastRelease(p));
    }
    if h == Bumped {
      ReachesNext(Initial(n), run', s', Bump(p));
      run', s' := run' + [Bump(p)], Step(s', Bump(p));
    }
    assert s'.peers == SetHandles(s, p, h).peers;
  }
}
