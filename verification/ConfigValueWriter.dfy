/**
 The stack machine that stores values in a configuration value. Its stack holds pointers into the
 tree under construction; a pointer is a path from the root, and every call changes the tree in
 place. Calls that do not match fail, and no sequence of calls leaves a dangling pointer (Valid).
 */
module ConfigValueWriter {
  import opened Basics
  import opened ConfigValues

  // -- Pointers ---------------------------------------------------------------------------------

  datatype Step = Key(k: string) | Elem(i: nat)

  type Path = seq<Step>

  function At(c: Conf, p: Path): (r: Option<Conf>)
    decreases |p|
  {
    if p == [] then Some(c)
    else match (p[0], c)
      case (Key(k), CDict(entries)) => if k in entries then At(entries[k], p[1..]) else None
      case (Elem(i), CList(items)) => if i < |items| then At(items[i], p[1..]) else None
      case _ => None
  }

  function Put(c: Conf, p: Path, x: Conf): (r: Conf)
    requires At(c, p).Some?
    decreases |p|
  {
    if p == [] then x
    else match p[0]
      case Key(k) => CDict(c.entries[k := Put(c.entries[k], p[1..], x)])
      case Elem(i) => CList(c.items[i := Put(c.items[i], p[1..], x)])
  }

  /** Below a new value, reading and writing see that value. */
  lemma {:induction false} PutThrough(c: Conf, p: Path, x: Conf, q: Path, y: Conf)
    requires At(c, p).Some?
    ensures At(Put(c, p, x), p + q) == At(x, q)
    ensures At(x, q).Some? ==> Put(Put(c, p, x), p + q, y) == Put(c, p, Put(x, q, y))
    decreases |p|
  {
    if p == [] {
      assert p + q == q;
    } else {
      assert (p + q)[0] == p[0] && (p + q)[1..] == p[1..] + q;
      match p[0]
      case Key(k) => PutThrough(c.entries[k], p[1..], x, q, y);
      case Elem(i) => PutThrough(c.items[i], p[1..], x, q, y);
    }
  }

  predicate SameKind(x: Option<Conf>, y: Option<Conf>) {
    x.Some? && y.Some? && (x.value.CDict? <==> y.value.CDict?) && (x.value.CList? <==> y.value.CList?)
  }

  /** A new value of the same kind leaves the kinds of all values on the way alone. */
  lemma {:induction false} PrefixKept(c: Conf, p: Path, x: Conf, q: Path)
    requires q <= p && SameKind(At(c, p), Some(x))
    ensures SameKind(At(c, q), At(Put(c, p, x), q))
    decreases |p|
  {
    if q != [] {
      assert q[1..] <= p[1..];
      match p[0]
      case Key(k) => PrefixKept(c.entries[k], p[1..], x, q[1..]);
      case Elem(i) => PrefixKept(c.items[i], p[1..], x, q[1..]);
    }
  }

  // -- Frames -------------------------------------------------------------------------------------

  datatype Frame =
    | Root
    | Settings(path: Path)
    | Absent(path: Path)  // an absent field of the dictionary at path
    | Present(path: Path, name: string)
    | Items(path: Path)

  predicate FrameOk(root: Conf, f: Frame) {
    !f.Root? && At(root, f.path).Some? && if f.Items? then At(root, f.path).value.CList? else At(root, f.path).value.CDict?
  }

  ghost predicate Chain(root: Conf, st: seq<Frame>) {
    && (forall i :: 0 <= i < |st| ==> FrameOk(root, st[i]))
    && forall i, j :: 0 <= i <= j < |st| ==> st[i].path <= st[j].path
  }

  lemma ChainKept(root: Conf, st: seq<Frame>, p: Path, x: Conf)
    requires Chain(root, st) && SameKind(At(root, p), Some(x))
    requires forall i :: 0 <= i < |st| ==> st[i].path <= p
    ensures Chain(Put(root, p, x), st)
  {
    forall i | 0 <= i < |st| ensures FrameOk(Put(root, p, x), st[i]) {
      PrefixKept(root, p, x, st[i].path);
    }
  }

  function DictAt(root: Conf, f: Frame): (m: map<string, Conf>)
    requires FrameOk(root, f) && !f.Items?
  {
    At(root, f.path).value.entries
  }

  function ListAt(root: Conf, f: Frame): (items: seq<Conf>)
    requires FrameOk(root, f) && f.Items?
  {
    At(root, f.path).value.items
  }

  // -- Where the next value goes ---------------------------------------------------------------------

  /** A value can be stored at the root, in a field that has none, or at the end of a list. */
  predicate CanPlace(root: Conf, f: Frame) {
    f.Root? || (FrameOk(root, f) && ((f.Present? && f.name !in DictAt(root, f)) || f.Items?))
  }

  function Place(root: Conf, f: Frame, x: Conf): (r: Conf)
    requires CanPlace(root, f)
  {
    match f
    case Present(p, name) => Put(root, p, CDict(DictAt(root, f)[name := x]))
    case Items(p) => Put(root, p, CList(ListAt(root, f) + [x]))
    case _ => x
  }

  function Slot(root: Conf, f: Frame): (p: Path)
    requires CanPlace(root, f)
  {
    match f
    case Present(p, name) => p + [Key(name)]
    case Items(p) => p + [Elem(|ListAt(root, f)|)]
    case _ => []
  }

  /** The slot holds the value, and changing it there is the same as having placed another one. */
  lemma PlaceSlot(root: Conf, f: Frame, x: Conf, y: Conf)
    requires CanPlace(root, f)
    ensures At(Place(root, f, x), Slot(root, f)) == Some(x)
    ensures Put(Place(root, f, x), Slot(root, f), y) == Place(root, f, y)
  {
    match f
    case Present(p, name) =>
      var d := DictAt(root, f);
      var step, dx := Key(name), CDict(d[name := x]);
      assert [step][1..] == [] && At(dx, [step]) == Some(x);
      PutThrough(root, p, dx, [step], y);
      assert Put(dx, [step], y) == CDict(d[name := y]);
    case Items(p) =>
      var l := ListAt(root, f);
      var step, lx := Elem(|l|), CList(l + [x]);
      assert [step][1..] == [] && At(lx, [step]) == Some(x);
      PutThrough(root, p, lx, [step], y);
      assert Put(lx, [step], y) == CList(l + [y]);
    case _ =>
  }

  lemma PlaceChain(root: Conf, st: seq<Frame>, x: Conf)
    requires Chain(root, st) && st != [] && CanPlace(root, st[|st| - 1])
    ensures Chain(Place(root, st[|st| - 1], x), st)
  {
    var f := st[|st| - 1];
    match f
    case Present(p, name) => ChainKept(root, st, p, CDict(DictAt(root, f)[name := x]));
    case Items(p) => ChainKept(root, st, p, CList(ListAt(root, f) + [x]));
  }

  /** The stack after a value: the root is consumed by a list or object; a map leaves its dictionary. */
  function After(st: seq<Frame>, v: Value): (r: seq<Frame>)
    requires st != []
  {
    if !st[|st| - 1].Root? || IsScalar(v) then st
    else st[..|st| - 1] + if v.Map? then [Settings([])] else []
  }

  /** The stack below the frame of a value that was begun. */
  function Below(st: seq<Frame>): (r: seq<Frame>)
    requires st != []
  {
    if st[|st| - 1].Root? then st[..|st| - 1] else st
  }

  lemma ChainPush(root: Conf, st: seq<Frame>, f: Frame)
    requires Chain(root, st) && FrameOk(root, f)
    requires st != [] ==> st[|st| - 1].path <= f.path
    ensures Chain(root, st + [f])
  {
    var st' := st + [f];
    forall i, j | 0 <= i <= j < |st'| ensures st'[i].path <= st'[j].path {
      if j == |st| && i < j {
        assert st[i].path <= st[|st| - 1].path;
      }
    }
  }

  lemma ChainPop(root: Conf, st: seq<Frame>)
    requires Chain(root, st) && st != []
    ensures Chain(root, st[..|st| - 1])
  {
  }

  /** A container that was begun is a sound top frame. */
  lemma OpenChain(root: Conf, st: seq<Frame>, x: Conf, f: Frame)
    requires st != [] && (st == [Root] || Chain(root, st)) && CanPlace(root, st[|st| - 1])
    requires (f.Settings? && x.CDict?) || (f.Items? && x.CList?)
    requires f.path == Slot(root, st[|st| - 1])
    ensures Chain(Place(root, st[|st| - 1], x), Below(st) + [f])
  {
    var root' := Place(root, st[|st| - 1], x);
    PlaceSlot(root, st[|st| - 1], x, x);
    if st == [Root] {
      assert Chain(root', []);
      ChainPush(root', [], f);
    } else {
      PlaceChain(root, st, x);
      ChainPush(root', st, f);
    }
  }

  /** Appending to a list that was placed is placing a longer list. */
  lemma NextItem(root: Conf, f: Frame, items: seq<Conf>, c: Conf)
    requires CanPlace(root, f)
    ensures var root', g := Place(root, f, CList(items)), Items(Slot(root, f));
            && FrameOk(root', g) && CanPlace(root', g) && ListAt(root', g) == items
            && Place(root', g, c) == Place(root, f, CList(items + [c]))
  {
    PlaceSlot(root, f, CList(items), CList(items + [c]));
  }

  /** Changing a dictionary that was placed is placing another dictionary. */
  lemma NextEntry(root: Conf, f: Frame, d: map<string, Conf>, d': map<string, Conf>)
    requires CanPlace(root, f)
    ensures var root', g := Place(root, f, CDict(d)), Settings(Slot(root, f));
            && FrameOk(root', g) && DictAt(root', g) == d
            && Put(root', g.path, CDict(d')) == Place(root, f, CDict(d'))
  {
    PlaceSlot(root, f, CDict(d), CDict(d'));
  }

  /** Taking the pair out of the temporary list and adding it leaves one more entry. */
  lemma PairDone(root: Conf, f: Frame, pair: Conf, k: string, c: Conf)
    requires f.Present? && f.name == "@tmp" && CanPlace(root, f)
    ensures At(Place(root, f, pair), Slot(root, f)).Some?
    ensures var d, g := DictAt(root, f), Settings(f.path);
            var root' := Put(Place(root, f, pair), Slot(root, f), CList([]));
            && FrameOk(root', g) && DictAt(root', g) - {"@tmp"} == d
            && Put(root', f.path, CDict(d[k := c])) == Put(root, f.path, CDict(d[k := c]))
  {
    PlaceSlot(root, f, pair, CList([]));
    var d := DictAt(root, f);
    PutThrough(root, f.path, CDict(d["@tmp" := CList([])]), [], CDict(d[k := c]));
    assert f.path + [] == f.path;
    assert d["@tmp" := CList([])] - {"@tmp"} == d;
  }

  class Writer {
    const order: Order
    const toText: Conf -> string  // to_string, for a key that is no string
    var root: Conf
    var st: seq<Frame>

    /** Every pointer on the stack is live, and each points into the value of the one below it. */
    ghost predicate Valid()
      reads this
    {
      st == [Root] || Chain(root, st)
    }

    function Top(): Frame
      requires st != []
      reads this
    {
      st[|st| - 1]
    }

    predicate Accepts()
      reads this
    {
      st != [] && CanPlace(root, Top())
    }

    twostate predicate Begun(x: Conf, new frames: seq<Frame>)
      reads this
    {
      old(Accepts()) && root == Place(old(root), old(Top()), x) && st == Below(old(st)) + frames
    }

    constructor (order: Order, toText: Conf -> string, root: Conf)
      ensures Valid() && this.order == order && st == [Root]
    {
      this.order, this.toText, this.root, st := order, toText, root, [Root];
    }

    /** What every call does that adds a value: push for a scalar, the first half of each begin. */
    method Emplace(x: Conf) returns (ok: bool)
      requires Valid()
      modifies this`root
      ensures Valid()
      ensures ok <==> old(Accepts())
      ensures root == if ok then Place(old(root), Top(), x) else old(root)
    {
      if st == [] {
        return false;
      }
      if CanPlace(root, Top()) && st != [Root] {
        PlaceChain(root, st, x);
      }
      match Top()
      case Root =>
        root := x;
        return true;
      case Settings(_) =>
        return false;
      case Absent(_) =>
        return false;
      case Present(p, name) =>
        var parent := DictAt(root, Top());
        if name in parent {
          return false;
        }
        root := Put(root, p, CDict(parent[name := x]));
        return true;
      case Items(p) =>
        root := Put(root, p, CList(ListAt(root, Top()) + [x]));
        return true;
    }

    method BeginObject() returns (ok: bool)
      requires Valid()
      modifies this
      ensures Valid()
      ensures ok <==> old(Accepts())
      ensures ok ==> Begun(CDict(map[]), [Settings(Slot(old(root), old(Top())))])
      ensures !ok ==> unchanged(this)
    {
      if Accepts() {
        OpenChain(root, st, CDict(map[]), Settings(Slot(root, Top())));
      }
      var slot := if Accepts() then Slot(root, Top()) else [];
      ok := Emplace(CDict(map[]));
      if ok {
        st := Below(st) + [Settings(slot)];
      }
    }

    method EndObject() returns (ok: bool)
      requires Valid()
      modifies this`st
      ensures Valid()
      ensures ok <==> old(st != [] && Top().Settings?)
      ensures st == if ok then old(st[..|st| - 1]) else old(st)
    {
      if st == [] || !Top().Settings? {
        return false;
      }
      ChainPop(root, st);
      st := st[..|st| - 1];
      return true;
    }

    method BeginField(name: string, isPresent: bool) returns (ok: bool)
      requires Valid()
      modifies this`st
      ensures Valid()
      ensures ok <==> old(st != [] && Top().Settings?)
      ensures ok ==> st == old(st) + [if isPresent then Present(old(Top()).path, name) else Absent(old(Top()).path)]
      ensures !ok ==> unchanged(this)
    {
      if st == [] || !Top().Settings? {
        return false;
      }
      var p := Top().path;
      var f := if isPresent then Present(p, name) else Absent(p);
      ChainPush(root, st, f);
      st := st + [f];
      return true;
    }

    method EndField() returns (ok: bool)
      requires Valid()
      modifies this`st
      ensures Valid()
      ensures ok <==> old(st != [] && (Top().Present? || Top().Absent?))
      ensures st == if ok then old(st[..|st| - 1]) else old(st)
    {
      if st == [] || !(Top().Present? || Top().Absent?) {
        return false;
      }
      ChainPop(root, st);
      st := st[..|st| - 1];
      return true;
    }

    method BeginSequence() returns (ok: bool)
      requires Valid()
      modifies this
      ensures Valid()
      ensures ok <==> old(Accepts())
      ensures ok ==> Begun(CList([]), [Items(Slot(old(root), old(Top())))])
      ensures !ok ==> unchanged(this)
    {
      if Accepts() {
        OpenChain(root, st, CList([]), Items(Slot(root, Top())));
      }
      var slot := if Accepts() then Slot(root, Top()) else [];
      ok := Emplace(CList([]));
      if ok {
        st := Below(st) + [Items(slot)];
      }
    }

    method EndSequence() returns (ok: bool)
      requires Valid()
      modifies this`st
      ensures Valid()
      ensures ok <==> old(st != [] && Top().Items?)
      ensures st == if ok then old(st[..|st| - 1]) else old(st)
    {
      if st == [] || !Top().Items? {
        return false;
      }
      ChainPop(root, st);
      st := st[..|st| - 1];
      return true;
    }

    /** At the root, the dictionary replaces the root frame and is pushed once more. */
    method BeginAssociativeArray() returns (ok: bool)
      requires Valid()
      modifies this
      ensures Valid()
      ensures ok <==> old(Accepts())
      ensures ok ==> var inner := Settings(Slot(old(root), old(Top())));
                     Begun(CDict(map[]), if old(Top()).Root? then [inner, inner] else [inner])
      ensures !ok ==> unchanged(this)
    {
      var atRoot := st == [Root];
      ok := BeginObject();
      if ok && atRoot {
        ChainPush(root, st, Top());
        st := st + [Top()];
      }
    }

    method EndAssociativeArray() returns (ok: bool)
      requires Valid()
      modifies this`st
      ensures Valid()
      ensures ok <==> old(st != [] && Top().Settings?)
      ensures st == if ok then old(st[..|st| - 1]) else old(st)
    {
      ok := EndObject();
    }

    /** The pair is built in a list under the key "@tmp". */
    method BeginKeyValuePair() returns (ok: bool)
      requires Valid()
      modifies this
      ensures Valid()
      ensures ok <==> old(st != [] && Top().Settings? && "@tmp" !in DictAt(root, Top()))
      ensures ok ==> var f := Present(old(Top()).path, "@tmp");
                     root == Place(old(root), f, CList([])) && st == old(st) + [Items(Slot(old(root), f))]
      ensures !ok ==> unchanged(this)
    {
      if st == [] || !Top().Settings? || "@tmp" in DictAt(root, Top()) {
        return false;
      }
      var f := Present(Top().path, "@tmp");
      ghost var x := CList([]);
      ChainPush(root, st, f);
      OpenChain(root, st + [f], x, Items(Slot(root, f)));
      var slot := Slot(root, f);
      ghost var st' := st + [f] + [Items(slot)];
      assert st + [Items(slot)] == st'[..|st|] + [st'[|st| + 1]];
      root := Put(root, f.path, CDict(DictAt(root, f)["@tmp" := CList([])]));
      st := st + [Items(slot)];
      return true;
    }

    /** Moves the two elements out of the temporary list and stores them as an entry. */
    method EndKeyValuePair() returns (ok: bool)
      requires Valid()
      modifies this
      ensures Valid()
      ensures !old(IsPair()) ==> !ok && unchanged(this)
      ensures old(IsPair()) ==> st == old(st[..|st| - 1])
      ensures old(IsPair()) && (st == [] || !Top().Settings?) ==> !ok && root == old(Emptied(root, Top()))
      ensures old(IsPair()) && st != [] && Top().Settings? ==>
        var root' := old(Emptied(root, Top()));
        && FrameOk(root', Top())
        && var tmp, d := old(ListAt(root, Top())), DictAt(root', Top()) - {"@tmp"};
           && (ok <==> KeyOf(tmp[0]) !in d)
           && root == Put(root', Top().path, CDict(if ok then d[KeyOf(tmp[0]) := tmp[1]] else d))
    {
      if !IsPair() {
        return false;
      }
      var tmp := ListAt(root, Top());
      ChainKept(root, st, Top().path, CList([]));
      root := Put(root, Top().path, CList([]));
      ChainPop(root, st);
      st := st[..|st| - 1];
      if st == [] || !Top().Settings? {
        return false;
      }
      var d := DictAt(root, Top()) - {"@tmp"};
      var key := KeyOf(tmp[0]);
      ok := key !in d;
      if ok {
        d := d[key := tmp[1]];
      }
      ChainKept(root, st, Top().path, CDict(d));
      root := Put(root, Top().path, CDict(d));
    }

    predicate IsPair()
      reads this
    {
      st != [] && Top().Items? && FrameOk(root, Top()) && |ListAt(root, Top())| == 2
    }

    function KeyOf(c: Conf): (key: string) {
      if c.CStr? then c.s else toText(c)
    }

    // -- Storing a value with the calls above ---------------------------------------------------

    /** Succeeds exactly on writable values; the place on top of the stack then holds the value. */
    method Save(v: Value) returns (ok: bool)
      requires Valid() && st != [] && IsOrder(order)
      modifies this
      ensures Valid()
      ensures ok <==> old(Accepts()) && Writable(order, v)
      ensures ok ==> root == Place(old(root), old(Top()), ToConf(v)) && st == After(old(st), v)
      decreases v, 3
    {
      match v
      case List(_) => ok := SaveList(v);
      case Map(_) => ok := SaveMap(v);
      case Object(_) => ok := SaveObject(v);
      case _ => ok := Emplace(ToConf(v));
    }

    method SaveList(v: Value) returns (ok: bool)
      requires Valid() && st != [] && IsOrder(order) && v.List?
      modifies this
      ensures Valid()
      ensures ok <==> old(Accepts()) && Writable(order, v)
      ensures ok ==> root == Place(old(root), old(Top()), ToConf(v)) && st == After(old(st), v)
      decreases v, 2
    {
      ok := BeginSequence();
      if !ok {
        return;
      }
      ok := SaveItems(v, old(root), old(Top()));
      if ok {
        ok := EndSequence();
      }
    }

    /** The loop over the elements of a list that was begun at frame f. */
    method SaveItems(v: Value, ghost root0: Conf, ghost f: Frame) returns (ok: bool)
      requires Valid() && IsOrder(order) && v.List? && CanPlace(root0, f)
      requires st != [] && Top() == Items(Slot(root0, f)) && root == Place(root0, f, CList([]))
      modifies this
      ensures Valid()
      ensures ok <==> forall j :: 0 <= j < |v.items| ==> Writable(order, v.items[j])
      ensures ok ==> root == Place(root0, f, ToConf(v)) && st == old(st)
      decreases v, 1
    {
      ghost var confs: seq<Conf> := [];
      for i := 0 to |v.items|
        invariant Valid() && st == old(st) && root == Place(root0, f, CList(confs))
        invariant |confs| == i && forall j :: 0 <= j < i ==> confs[j] == ToConf(v.items[j])
        invariant forall j :: 0 <= j < i ==> Writable(order, v.items[j])
      {
        ok := SaveItem(v.items[i], root0, f, confs);
        if !ok {
          return;
        }
        confs := confs + [ToConf(v.items[i])];
      }
      assert confs == ToConf(v).items;
      return true;
    }

    method SaveItem(x: Value, ghost root0: Conf, ghost f: Frame, ghost items: seq<Conf>) returns (ok: bool)
      requires Valid() && IsOrder(order) && CanPlace(root0, f)
      requires st != [] && Top() == Items(Slot(root0, f)) && root == Place(root0, f, CList(items))
      modifies this
      ensures Valid()
      ensures ok <==> Writable(order, x)
      ensures ok ==> root == Place(root0, f, CList(items + [ToConf(x)])) && st == old(st)
      decreases x, 4
    {
      NextItem(root0, f, items, ToConf(x));
      ok := Save(x);
    }

    method SaveField(v: Value, i: nat) returns (ok: bool)
      requires Valid() && st != [] && Top().Settings? && IsOrder(order) && v.Object? && i < |v.fields|
      modifies this
      ensures Valid()
      ensures var d, x := old(DictAt(root, Top())), v.fields[i];
              && (ok <==> (x.value.Some? ==> x.name !in d && Writable(order, x.value.value)))
              && (ok ==> st == old(st))
              && (ok && x.value.Some? ==> root == Put(old(root), Top().path, CDict(d[x.name := ToConf(x.value.value)])))
              && (ok && x.value.None? ==> root == old(root))
      decreases v, 0
    {
      var x := v.fields[i];
      ok := BeginField(x.name, x.value.Some?);
      if x.value.Some? {
        ok := Save(x.value.value);
        if !ok {
          return;
        }
      }
      ok := EndField();
    }

    method SaveObject(v: Value) returns (ok: bool)
      requires Valid() && st != [] && IsOrder(order) && v.Object?
      modifies this
      ensures Valid()
      ensures ok <==> old(Accepts()) && Writable(order, v)
      ensures ok ==> root == Place(old(root), old(Top()), ToConf(v)) && st == After(old(st), v)
      decreases v, 2
    {
      ok := BeginObject();
      if !ok {
        return;
      }
      ok := SaveFields(v, old(root), old(Top()));
      if ok {
        ok := EndObject();
      }
    }

    /** The loop over the fields of an object that was begun at frame f. */
    method SaveFields(v: Value, ghost root0: Conf, ghost f: Frame) returns (ok: bool)
      requires Valid() && IsOrder(order) && v.Object? && CanPlace(root0, f)
      requires st != [] && Top() == Settings(Slot(root0, f)) && root == Place(root0, f, CDict(map[]))
      modifies this
      ensures Valid()
      ensures ok <==> FieldsWritable(order, v, |v.fields|)
      ensures ok ==> root == Place(root0, f, CDict(FieldConfs(v, |v.fields|))) && st == old(st)
      decreases v, 1
    {
      for i := 0 to |v.fields|
        invariant Valid() && st == old(st) && root == Place(root0, f, CDict(FieldConfs(v, i)))
        invariant FieldsWritable(order, v, i)
      {
        NextEntry(root0, f, FieldConfs(v, i), FieldConfs(v, i + 1));
        NextWritable(order, v, i);
        ok := SaveField(v, i);
        if !ok {
          return;
        }
      }
      return true;
    }

    method SavePair(k: string, x: Value) returns (ok: bool)
      requires Valid() && st != [] && Top().Settings? && IsOrder(order)
      requires k !in DictAt(root, Top())
      modifies this
      ensures Valid()
      ensures var d := old(DictAt(root, Top()));
              && (ok <==> "@tmp" !in d && Writable(order, x))
              && (ok ==> st == old(st) && root == Put(old(root), Top().path, CDict(d[k := ToConf(x)])))
      decreases x, 6
    {
      ghost var root0, f, d := root, Present(Top().path, "@tmp"), DictAt(root, Top());
      ghost var c := ToConf(x);
      ok := BeginKeyValuePair();
      if !ok {
        return;
      }
      ok := SaveKeyAndValue(k, x, root0, f);
      if !ok {
        return;
      }
      NextItem(root0, f, [CStr(k), c], c);
      PairDone(root0, f, CList([CStr(k), c]), k, c);
      ok := EndKeyValuePair();
    }

    method SaveKeyAndValue(k: string, x: Value, ghost root0: Conf, ghost f: Frame) returns (ok: bool)
      requires Valid() && IsOrder(order) && CanPlace(root0, f)
      requires st != [] && Top() == Items(Slot(root0, f)) && root == Place(root0, f, CList([]))
      modifies this
      ensures Valid()
      ensures ok <==> Writable(order, x)
      ensures ok ==> root == Place(root0, f, CList([CStr(k), ToConf(x)])) && st == old(st)
      decreases x, 5
    {
      NextItem(root0, f, [], CStr(k));
      assert [] + [CStr(k)] == [CStr(k)] && [CStr(k)] + [ToConf(x)] == [CStr(k), ToConf(x)];
      ok := Emplace(CStr(k));
      ok := SaveItem(x, root0, f, [CStr(k)]);
    }

    method SaveMap(v: Value) returns (ok: bool)
      requires Valid() && st != [] && IsOrder(order) && v.Map?
      modifies this
      ensures Valid()
      ensures ok <==> old(Accepts()) && Writable(order, v)
      ensures ok ==> root == Place(old(root), old(Top()), ToConf(v)) && st == After(old(st), v)
      decreases v, 2
    {
      ok := BeginAssociativeArray();
      if !ok {
        return;
      }
      var keys := order(v.entries.Keys);
      AllWritable(order, v, keys);
      ok := SavePairs(v, keys, old(root), old(Top()));
      if ok {
        AllPairs(v, keys);
        ok := EndAssociativeArray();
      }
    }

    /** The loop over the entries of a map that was begun at frame f. */
    method SavePairs(v: Value, keys: seq<string>, ghost root0: Conf, ghost f: Frame) returns (ok: bool)
      requires Valid() && IsOrder(order) && v.Map? && Enumerates(keys, v.entries.Keys) && CanPlace(root0, f)
      requires st != [] && Top() == Settings(Slot(root0, f)) && root == Place(root0, f, CDict(map[]))
      modifies this
      ensures Valid()
      ensures ok <==> PairsWritable(order, v, keys, |keys|)
      ensures ok ==> root == Place(root0, f, CDict(PairConfs(v, keys, |keys|))) && st == old(st)
      decreases v, 1
    {
      for i := 0 to |keys|
        invariant Valid() && st == old(st) && root == Place(root0, f, CDict(PairConfs(v, keys, i)))
        invariant PairsWritable(order, v, keys, i)
      {
        NextPairWritable(order, v, keys, i);
        ok := SaveNextPair(keys[i], v.entries[keys[i]], root0, f, PairConfs(v, keys, i));
        if !ok {
          return;
        }
      }
      return true;
    }

    method SaveNextPair(k: string, x: Value, ghost root0: Conf, ghost f: Frame, ghost d: map<string, Conf>) returns (ok: bool)
      requires Valid() && IsOrder(order) && CanPlace(root0, f) && k !in d
      requires st != [] && Top() == Settings(Slot(root0, f)) && root == Place(root0, f, CDict(d))
      modifies this
      ensures Valid()
      ensures ok <==> "@tmp" !in d && Writable(order, x)
      ensures ok ==> root == Place(root0, f, CDict(d[k := ToConf(x)])) && st == old(st)
      decreases x, 7
    {
      NextEntry(root0, f, d, d[k := ToConf(x)]);
      ok := SavePair(k, x);
    }
  }

  lemma NextPairWritable(order: Order, v: Value, keys: seq<string>, n: nat)
    requires v.Map? && Enumerates(keys, v.entries.Keys) && n < |keys| && PairsWritable(order, v, keys, n)
    ensures keys[n] !in PairConfs(v, keys, n)
    ensures PairsWritable(order, v, keys, n + 1) <==>
            "@tmp" !in PairConfs(v, keys, n) && Writable(order, v.entries[keys[n]])
    ensures PairsWritable(order, v, keys, |keys|) ==> PairsWritable(order, v, keys, n + 1)
  {
    PairKeys(v, keys, n);
  }

  lemma AllWritable(order: Order, v: Value, keys: seq<string>)
    requires v.Map? && keys == order(v.entries.Keys) && Enumerates(keys, v.entries.Keys)
    ensures PairsWritable(order, v, keys, |keys|) <==> Writable(order, v)
  {
    assert forall k :: k in v.entries ==> k in v.entries.Keys;
  }

  function Emptied(root: Conf, f: Frame): (r: Conf)
    requires FrameOk(root, f)
  {
    Put(root, f.path, CList([]))
  }

  ghost predicate FieldsWritable(order: Order, v: Value, n: nat)
    requires v.Object? && n <= |v.fields|
  {
    && (forall i :: 0 <= i < n && v.fields[i].value.Some? ==> Writable(order, v.fields[i].value.value))
    && forall i, j :: 0 <= i < j < n && v.fields[i].value.Some? && v.fields[j].value.Some? ==>
         v.fields[i].name != v.fields[j].name
  }

  lemma NextWritable(order: Order, v: Value, n: nat)
    requires v.Object? && n < |v.fields|
    ensures var x := v.fields[n];
            FieldsWritable(order, v, n + 1) <==>
            && FieldsWritable(order, v, n)
            && (x.value.Some? ==> x.name !in FieldConfs(v, n) && Writable(order, x.value.value))
  {
    var x := v.fields[n];
    FieldKeys(v, n, x.name);
    if x.value.Some? && x.name in FieldConfs(v, n) {
      var i :| 0 <= i < n && Defines(v, i, x.name);
    } else if x.value.Some? {
      forall i | 0 <= i < n && v.fields[i].value.Some? ensures v.fields[i].name != x.name {
        assert !Defines(v, i, x.name);
      }
    }
  }

  /** The first n pairs could be added. */
  ghost predicate PairsWritable(order: Order, v: Value, keys: seq<string>, n: nat)
    requires v.Map? && n <= |keys| && forall i :: 0 <= i < |keys| ==> keys[i] in v.entries
  {
    && (forall i :: 0 <= i < n ==> Writable(order, v.entries[keys[i]]))
    && forall i :: 0 <= i < n - 1 ==> keys[i] != "@tmp"
  }

  ghost function PairConfs(v: Value, keys: seq<string>, n: nat): (m: map<string, Conf>)
    requires v.Map? && n <= |keys| && forall i :: 0 <= i < |keys| ==> keys[i] in v.entries
  {
    if n == 0 then map[] else PairConfs(v, keys, n - 1)[keys[n - 1] := ToConf(v.entries[keys[n - 1]])]
  }

  lemma {:induction false} PairKeys(v: Value, keys: seq<string>, n: nat)
    requires v.Map? && n <= |keys| && forall i :: 0 <= i < |keys| ==> keys[i] in v.entries
    ensures PairConfs(v, keys, n).Keys == set i | 0 <= i < n :: keys[i]
    ensures forall i :: 0 <= i < n ==> PairConfs(v, keys, n)[keys[i]] == ToConf(v.entries[keys[i]])
  {
    if n > 0 {
      PairKeys(v, keys, n - 1);
    }
  }

  lemma AllPairs(v: Value, keys: seq<string>)
    requires v.Map? && Enumerates(keys, v.entries.Keys)
    ensures CDict(PairConfs(v, keys, |keys|)) == ToConf(v)
  {
    PairKeys(v, keys, |keys|);
    var m, entries := PairConfs(v, keys, |keys|), ToConf(v).entries;
    forall k | k in v.entries ensures k in m && m[k] == entries[k] {
      var i :| 0 <= i < |keys| && keys[i] == k;
    }
    assert m == entries;
  }
}
