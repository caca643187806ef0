/**
 The key-value store of the configuration server with its two indexes: the subscribers of a key and
 the keys of a subscriber. Both are kept exact inverses of one relation.
 */
module ConfigServer {

  datatype Actor = Actor(id: nat)

  type Message = seq<int>  // make_message() is the empty one

  datatype Sender = Nobody | From(actor: Actor)

  datatype Entry = Entry(msg: Message, subs: set<Actor>)

  datatype Update = Update(to: Actor, key: string, msg: Message)

  datatype Reply = One(key: string, msg: Message) | All(msgs: map<string, Message>)

  type Relation = set<(Actor, string)>

  // -- The two maps; operator[] of the hash map creates empty entries ------------------------------

  function EntryOf(data: map<string, Entry>, key: string): (e: Entry) {
    if key in data then data[key] else Entry([], {})
  }

  function Topics(subscribers: map<Actor, set<string>>, a: Actor): (ks: set<string>) {
    if a in subscribers then subscribers[a] else {}
  }

  ghost predicate Inverse(data: map<string, Entry>, subscribers: map<Actor, set<string>>, rel: Relation) {
    && (forall a, k :: a in EntryOf(data, k).subs <==> (a, k) in rel)
    && (forall a, k :: k in Topics(subscribers, a) <==> (a, k) in rel)
  }

  ghost function Without(rel: Relation, a: Actor): (r: Relation) {
    set p | p in rel && p.0 != a
  }

  // -- Requests ---------------------------------------------------------------------------------------

  datatype Request = Put(key: string, msg: Message) | Subscribe(key: string) | Unsubscribe(key: string)

  datatype Mail = Mail(sender: Sender, request: Request)

  ghost function Step(rel: Relation, m: Mail): (r: Relation) {
    match (m.sender, m.request)
    case (From(a), Subscribe(k)) => rel + {(a, k)}
    case (From(a), Unsubscribe(k)) => if k == "*" then Without(rel, a) else rel - {(a, k)}
    case _ => rel
  }

  ghost function Fold(mails: seq<Mail>): (rel: Relation) {
    if mails == [] then {} else Step(Fold(mails[..|mails| - 1]), mails[|mails| - 1])
  }

  /** Whether the last relevant word of a about k was a subscription. */
  predicate LastWord(mails: seq<Mail>, a: Actor, k: string) {
    if mails == [] then false
    else
      var m := mails[|mails| - 1];
      if m.sender == From(a) && m.request == Subscribe(k) then true
      else if m.sender == From(a) && (m.request == Unsubscribe(k) || m.request == Unsubscribe("*")) then false
      else LastWord(mails[..|mails| - 1], a, k)
  }

  lemma {:induction false} FoldIsLastWord(mails: seq<Mail>, a: Actor, k: string)
    ensures (a, k) in Fold(mails) <==> LastWord(mails, a, k)
  {
    if mails != [] {
      FoldIsLastWord(mails[..|mails| - 1], a, k);
    }
  }

  /** The message of the last put of a key. */
  function LastPut(mails: seq<Mail>, k: string): (msg: Message) {
    if mails == [] then []
    else
      var m := mails[|mails| - 1];
      if m.request.Put? && m.request.key == k && k != "*" then m.request.msg else LastPut(mails[..|mails| - 1], k)
  }

  // -- Monitors -----------------------------------------------------------------------------------------

  /** a has an entry among the subscribers: its last request did not end all subscriptions. */
  predicate Known(mails: seq<Mail>, a: Actor) {
    if mails == [] then false
    else
      var m := mails[|mails| - 1];
      if m.sender == From(a) && !m.request.Put? then m.request != Unsubscribe("*") else Known(mails[..|mails| - 1], a)
  }

  /** Request i opens an entry for a. */
  predicate Opens(mails: seq<Mail>, i: nat, a: Actor)
    requires i < |mails|
  {
    && mails[i].sender == From(a) && !mails[i].request.Put? && mails[i].request != Unsubscribe("*")
    && !Known(mails[..i], a)
  }

  /** The monitors that the server has placed on a: one for each subscription that opens an entry. */
  function Monitors(mails: seq<Mail>, a: Actor): (n: nat) {
    if mails == [] then 0
    else
      var n := |mails| - 1;
      Monitors(mails[..n], a) + if Opens(mails, n, a) && mails[n].request.Subscribe? then 1 else 0
  }

  /**
   "Every subscriber is monitored" does not hold: an entry that was opened by an unsubscribe has no
   monitor, and a later subscription does not place one.
   */
  lemma SubscriberWithoutMonitor(a: Actor, k: string) returns (mails: seq<Mail>)
    requires k != "*"
    ensures LastWord(mails, a, k) && Monitors(mails, a) == 0
  {
    mails := [Mail(From(a), Unsubscribe(k)), Mail(From(a), Subscribe(k))];
    var first := mails[..1];
    assert first == [mails[0]] && first[..0] == [];
    assert Known(first, a) && !Opens(mails, 1, a);
    assert Monitors(first, a) == Monitors(first[..0], a) == 0;
  }

  /** A subscriber is monitored exactly if one of its entries was opened by a subscription. */
  lemma {:induction false} MonitoredIff(mails: seq<Mail>, a: Actor)
    ensures Monitors(mails, a) > 0 <==> exists i :: 0 <= i < |mails| && Opens(mails, i, a) && mails[i].request.Subscribe?
  {
    if mails != [] {
      var front := mails[..|mails| - 1];
      MonitoredIff(front, a);
      assert forall i :: 0 <= i < |front| ==> front[i] == mails[i] && front[..i] == mails[..i];
      assert forall i :: 0 <= i < |front| ==> Opens(front, i, a) == Opens(mails, i, a);
    }
  }

  // -- Notifications ------------------------------------------------------------------------------------

  /** How many updates a put by the sender brings to an actor: one for the key, one for the wildcard. */
  ghost function Notices(rel: Relation, sender: Sender, key: string, a: Actor): (n: nat) {
    if From(a) == sender || key == "*" then 0
    else (if (a, key) in rel then 1 else 0) + (if (a, "*") in rel then 1 else 0)
  }

  class Server {
    var data: map<string, Entry>
    var subscribers: map<Actor, set<string>>
    var monitors: map<Actor, nat>  // how many monitors were placed on each actor
    ghost var rel: Relation

    function MonitorsOf(a: Actor): (n: nat)
      reads this
    {
      if a in monitors then monitors[a] else 0
    }

    ghost predicate Valid()
      reads this
    {
      Inverse(data, subscribers, rel)
    }

    constructor ()
      ensures Valid() && rel == {} && data == map[] && subscribers == map[] && monitors == map[]
    {
      data, subscribers, monitors, rel := map[], map[], map[], {};
    }

    /** One of the two loops of a put. */
    method Notify(subs: set<Actor>, sender: Sender, key: string, msg: Message) returns (sent: seq<Update>)
      ensures forall u :: u in sent ==> u.key == key && u.msg == msg
      ensures forall a :: multiset(sent)[Update(a, key, msg)] == if a in subs && From(a) != sender then 1 else 0
    {
      sent := [];
      var todo := subs;
      while todo != {}
        invariant todo <= subs
        invariant forall u :: u in sent ==> u.key == key && u.msg == msg
        invariant forall a :: multiset(sent)[Update(a, key, msg)] ==
                              if a in subs - todo && From(a) != sender then 1 else 0
      {
        var a :| a in todo;
        todo := todo - {a};
        if From(a) != sender {
          sent := sent + [Update(a, key, msg)];
        }
      }
    }

    method HandlePut(sender: Sender, key: string, msg: Message) returns (sent: seq<Update>)
      requires Valid()
      modifies this`data
      ensures Valid()
      ensures forall k :: EntryOf(data, k).msg == if k == key && k != "*" then msg else old(EntryOf(data, k).msg)
      ensures forall u :: u in sent ==> u.key == key && u.msg == msg
      ensures forall a :: multiset(sent)[Update(a, key, msg)] == Notices(rel, sender, key, a)
      ensures key == "*" ==> sent == []
      ensures forall a :: From(a) == sender ==> Update(a, key, msg) !in sent
      ensures forall a :: key != "*" && From(a) != sender ==>
                multiset(sent)[Update(a, key, msg)] == (if a in EntryOf(data, key).subs then 1 else 0) +
                  (if a in EntryOf(data, "*").subs then 1 else 0)
    {
      if key == "*" {
        return [];
      }
      data := data[key := EntryOf(data, key).(msg := msg)];
      var direct := Notify(data[key].subs, sender, key, msg);
      data := data["*" := EntryOf(data, "*")];
      var wild := Notify(data["*"].subs, sender, key, msg);
      sent := direct + wild;
    }

    method HandleGet(key: string) returns (reply: Reply)
      ensures key != "*" ==> reply == One(key, EntryOf(data, key).msg)
      ensures key == "*" ==> reply.All? && reply.msgs.Keys == data.Keys - {"*"}
      ensures key == "*" ==> forall k :: k in reply.msgs ==> reply.msgs[k] == EntryOf(data, k).msg
    {
      if key == "*" {
        return All(map k | k in data && k != "*" :: data[k].msg);
      }
      return One(key, if key in data then data[key].msg else []);
    }

    method HandleSubscribe(sender: Sender, key: string)
      requires Valid()
      modifies this
      ensures Valid() && rel == Step(old(rel), Mail(sender, Subscribe(key)))
      ensures forall k :: EntryOf(data, k).msg == old(EntryOf(data, k).msg)
      ensures subscribers.Keys == old(subscribers.Keys) + if sender.From? then {sender.actor} else {}
      ensures forall a :: MonitorsOf(a) == old(MonitorsOf(a)) + if sender == From(a) && a !in old(subscribers) then 1 else 0
    {
      if sender.Nobody? {
        return;
      }
      var a := sender.actor;
      var e := EntryOf(data, key);
      data := data[key := e.(subs := e.subs + {a})];
      if a in subscribers {
        subscribers := subscribers[a := subscribers[a] + {key}];
      } else {
        monitors := monitors[a := MonitorsOf(a) + 1];
        subscribers := subscribers[a := {key}];
      }
      rel := rel + {(a, key)};
    }

    method UnsubscribeAll(a: Actor)
      requires Valid()
      modifies `data, `subscribers, `rel
      ensures Valid() && rel == Without(old(rel), a) && subscribers.Keys == old(subscribers.Keys) - {a}
      ensures forall k :: EntryOf(data, k).msg == old(EntryOf(data, k).msg)
    {
      if a !in subscribers {
        assert forall k :: k !in Topics(subscribers, a);
        assert rel == Without(rel, a);
        return;
      }
      var topics := subscribers[a];
      RemoveFrom(a, topics);
      subscribers := subscribers - {a};
      rel := Without(rel, a);
    }

    /** The loop over the keys of a subscriber. */
    method RemoveFrom(a: Actor, topics: set<string>)
      modifies this`data
      ensures forall k :: EntryOf(data, k).subs == old(EntryOf(data, k).subs) - if k in topics then {a} else {}
      ensures forall k :: EntryOf(data, k).msg == old(EntryOf(data, k).msg)
    {
      var todo := topics;
      while todo != {}
        invariant todo <= topics
        invariant forall k :: EntryOf(data, k).subs == old(EntryOf(data, k).subs) - if k in topics - todo then {a} else {}
        invariant forall k :: EntryOf(data, k).msg == old(EntryOf(data, k).msg)
      {
        var k :| k in todo;
        todo := todo - {k};
        var e := EntryOf(data, k);
        data := data[k := e.(subs := e.subs - {a})];
      }
    }

    method HandleUnsubscribe(sender: Sender, key: string)
      requires Valid()
      modifies `data, `subscribers, `rel
      ensures Valid() && rel == Step(old(rel), Mail(sender, Unsubscribe(key)))
      ensures forall k :: EntryOf(data, k).msg == old(EntryOf(data, k).msg)
      ensures subscribers.Keys == if sender.Nobody? then old(subscribers.Keys)
                                  else if key == "*" then old(subscribers.Keys) - {sender.actor}
                                  else old(subscribers.Keys) + {sender.actor}
    {
      if sender.Nobody? {
        return;
      }
      if key == "*" {
        UnsubscribeAll(sender.actor);
        return;
      }
      var a := sender.actor;
      subscribers := subscribers[a := Topics(subscribers, a) - {key}];
      var e := EntryOf(data, key);
      data := data[key := e.(subs := e.subs - {a})];
      rel := rel - {(a, key)};
    }

    ghost predicate After(mails: seq<Mail>)
      reads this
    {
      && Valid() && rel == Fold(mails)
      && (forall k :: EntryOf(data, k).msg == LastPut(mails, k))
      && (forall a :: a in subscribers <==> Known(mails, a))
      && (forall a :: MonitorsOf(a) == Monitors(mails, a))
    }

    method Handle(m: Mail, ghost before: seq<Mail>)
      requires After(before)
      modifies this
      ensures After(before + [m])
    {
      assert (before + [m])[..|before|] == before;
      match m.request
      case Put(key, msg) => var _ := HandlePut(m.sender, key, msg);
      case Subscribe(key) => HandleSubscribe(m.sender, key);
      case Unsubscribe(key) => HandleUnsubscribe(m.sender, key);
    }

    /**
     After any run, both maps say what each actor said last, each key holds its last put, and each
     actor has as many monitors as subscriptions of it opened an entry.
     */
    method HandleAll(mails: seq<Mail>)
      requires Valid() && rel == {} && data == map[] && subscribers == map[] && monitors == map[]
      modifies this
      ensures Valid() && rel == Fold(mails)
      ensures forall a, k :: a in EntryOf(data, k).subs <==> LastWord(mails, a, k)
      ensures forall a, k :: k in Topics(subscribers, a) <==> LastWord(mails, a, k)
      ensures forall k :: EntryOf(data, k).msg == LastPut(mails, k)
      ensures forall a :: MonitorsOf(a) == Monitors(mails, a)
    {
      for i := 0 to |mails|
        invariant After(mails[..i])
      {
        assert mails[..i + 1] == mails[..i] + [mails[i]];
        Handle(mails[i], mails[..i]);
      }
      assert mails[..|mails|] == mails;
      forall a, k ensures (a, k) in rel <==> LastWord(mails, a, k) {
        FoldIsLastWord(mails, a, k);
      }
    }
  }
}
