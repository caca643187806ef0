/**
 The stack machine that loads values from a configuration value. A call consumes what it reads: a
 value is popped, a list or a dictionary is replaced by a cursor over it.
 */
module ConfigValueReader {
  import opened Basics
  import opened ConfigValues
  import opened ConfigValueWriter

  datatype Cursor =
    | Dictionary(entries: map<string, Conf>)
    | Single(c: Conf)
    | KeyText(k: string)
    | Sequence(index: nat, items: seq<Conf>)
    | AssociativeArray(pos: nat, keys: seq<string>, entries: map<string, Conf>)

  /** The value that the next call reads. */
  function Peek(f: Cursor): (r: Option<Conf>) {
    match f
    case Single(c) => Some(c)
    case Sequence(i, items) => if i < |items| then Some(items[i]) else None
    case _ => None
  }

  predicate IsScalarType(t: Schema) {
    t.TBool? || t.TInt? || t.TStr?
  }

  /** What the frame makes of its next value. */
  function Expected(cv: Conversions, f: Cursor, t: Schema): (r: Option<Value>) {
    if f.KeyText? then (if t.TStr? then Some(Str(f.k)) else if IsScalarType(t) then cv.key(t, f.k) else None)
    else match Peek(f)
      case None => None
      case Some(c) => FromConf(cv, f.Sequence?, t, c)
  }

  /** A key is taken as a string, or parsed as another scalar; it is no container. */
  lemma KeyLoads(cv: Conversions, k: string, t: Schema)
    ensures Expected(cv, KeyText(k), TStr) == Some(Str(k))
    ensures t == TBool || t == TInt ==> Expected(cv, KeyText(k), t) == cv.key(t, k)
    ensures t.TList? || t.TMap? || t.TObject? ==> Expected(cv, KeyText(k), t) == None
  {
  }

  /** The stack without that value; a key that was read as anything but a string stays. */
  function Consumed(st: seq<Cursor>, t: Schema): (r: seq<Cursor>)
    requires st != []
  {
    var n := |st| - 1;
    if st[n].Sequence? then st[..n] + [Sequence(st[n].index + 1, st[n].items)]
    else if st[n].KeyText? && !t.TStr? then st
    else st[..n]
  }

  class Reader {
    const cv: Conversions
    const order: Order
    var st: seq<Cursor>

    function Top(): Cursor
      requires st != []
      reads this
    {
      st[|st| - 1]
    }

    function Rest(): seq<Cursor>
      requires st != []
      reads this
    {
      st[..|st| - 1]
    }

    constructor (cv: Conversions, order: Order, input: Conf)
      ensures this.cv == cv && this.order == order && st == [Single(input)]
    {
      this.cv, this.order, st := cv, order, [Single(input)];
    }

    /** An object replaces a single value on top; in a sequence, the cursor moves on first. */
    method BeginObject(typeName: Option<string>) returns (ok: bool)
      modifies this
      ensures ok <==> && old(st != [] && Peek(Top()).Some?)
                      && var m := AsDictionary(cv, old(Top()).Sequence?, old(Peek(Top())).value);
                         m.Some? && !TypeClash(typeName, m.value)
      ensures ok ==> st == Consumed(old(st), TObject(typeName, [])) +
                             [Dictionary(AsDictionary(cv, old(Top()).Sequence?, old(Peek(Top())).value).value)]
    {
      if st == [] {
        return false;
      }
      match Top() {
      case Single(c) =>
        var m := if c.CDict? then Some(c.entries) else cv.dictionary(c);
        if m.None? {
          return false;
        }
        st := Rest() + [Dictionary(m.value)];
      case Sequence(i, items) =>
        if i >= |items| || !items[i].CDict? {
          return false;
        }
        st := Rest() + [Sequence(i + 1, items)] + [Dictionary(items[i].entries)];
      case _ =>
        return false;
      }
      return !TypeClash(typeName, Top().entries);
    }

    method EndObject() returns (ok: bool)
      modifies this
      ensures ok <==> old(st != [] && Top().Dictionary?)
      ensures st == if ok then old(Rest()) else old(st)
    {
      ok := st != [] && Top().Dictionary?;
      if ok {
        st := Rest();
      }
    }

    method BeginField(name: string) returns (ok: bool)
      modifies this
      ensures ok <==> old(st != [] && Top().Dictionary? && name in Top().entries)
      ensures st == if ok then old(st + [Single(Top().entries[name])]) else old(st)
    {
      ok := st != [] && Top().Dictionary? && name in Top().entries;
      if ok {
        st := st + [Single(Top().entries[name])];
      }
    }

    /** An absent field pushes nothing. */
    method BeginOptionalField(name: string) returns (ok: bool, isPresent: bool)
      modifies this
      ensures ok <==> old(st != [] && Top().Dictionary?)
      ensures isPresent <==> ok && old(name in Top().entries)
      ensures st == if isPresent then old(st + [Single(Top().entries[name])]) else old(st)
    {
      if st == [] || !Top().Dictionary? {
        return false, false;
      }
      isPresent := name in Top().entries;
      if isPresent {
        st := st + [Single(Top().entries[name])];
      }
      ok := true;
    }

    /** The value of the field was consumed already. */
    method EndField() returns (ok: bool)
      ensures ok <==> st != []
    {
      ok := st != [];
    }

    method BeginSequence() returns (ok: bool, size: nat)
      modifies this
      ensures ok <==> old(st != [] && Top().Single? && Top().c.CList?)
      ensures ok ==> size == |old(Top()).c.items| && st == old(Rest() + [Sequence(0, Top().c.items)])
      ensures !ok ==> unchanged(this)
    {
      if st == [] || !Top().Single? || !Top().c.CList? {
        return false, 0;
      }
      ok, size := true, |Top().c.items|;
      st := Rest() + [Sequence(0, Top().c.items)];
    }

    method EndSequence() returns (ok: bool)
      modifies this
      ensures ok <==> old(st != [] && Top().Sequence? && Top().index >= |Top().items|)
      ensures st == if ok then old(Rest()) else old(st)
    {
      ok := st != [] && Top().Sequence? && Top().index >= |Top().items|;
      if ok {
        st := Rest();
      }
    }

    method BeginAssociativeArray() returns (ok: bool, size: nat)
      modifies this
      ensures ok <==> old(st != [] && Top().Single? && Top().c.CDict?)
      ensures ok ==> var m := old(Top()).c.entries;
                     size == |order(m.Keys)| && st == old(Rest()) + [AssociativeArray(0, order(m.Keys), m)]
      ensures !ok ==> unchanged(this)
    {
      if st == [] || !Top().Single? || !Top().c.CDict? {
        return false, 0;
      }
      var m := Top().c.entries;
      ok, size := true, |order(m.Keys)|;
      st := Rest() + [AssociativeArray(0, order(m.Keys), m)];
    }

    predicate HasPair()
      reads this
    {
      && st != [] && Top().AssociativeArray? && Top().pos < |Top().keys|
      && Top().keys[Top().pos] in Top().entries
    }

    method BeginKeyValuePair() returns (ok: bool)
      modifies this
      ensures ok <==> old(HasPair())
      ensures ok ==> var k := old(Top().keys[Top().pos]);
                     st == old(st) + [Single(old(Top()).entries[k]), KeyText(k)]
      ensures !ok ==> unchanged(this)
    {
      if !HasPair() {
        return false;
      }
      var k := Top().keys[Top().pos];
      st := st + [Single(Top().entries[k])] + [KeyText(k)];
      return true;
    }

    method EndKeyValuePair() returns (ok: bool)
      modifies this
      ensures ok <==> old(st != [] && Top().AssociativeArray?)
      ensures st == if ok then old(Rest() + [Top().(pos := Top().pos + 1)]) else old(st)
    {
      ok := st != [] && Top().AssociativeArray?;
      if ok {
        st := Rest() + [Top().(pos := Top().pos + 1)];
      }
    }

    method EndAssociativeArray() returns (ok: bool)
      modifies this
      ensures ok <==> old(st != [] && Top().AssociativeArray? && Top().pos == |Top().keys|)
      ensures st == if ok then old(Rest()) else old(st)
    {
      ok := st != [] && Top().AssociativeArray? && Top().pos == |Top().keys|;
      if ok {
        st := Rest();
      }
    }

    method Pull(t: Schema) returns (r: Option<Value>)
      requires IsScalarType(t)
      modifies this
      ensures r == if old(st) == [] then None else Expected(cv, old(Top()), t)
      ensures st == if r.Some? then Consumed(old(st), t) else old(st)
    {
      if st == [] {
        return None;
      }
      match Top()
      case Single(c) =>
        r := AsScalar(cv, t, c);
        if r.Some? {
          st := Rest();
        }
      case Sequence(i, items) =>
        r := if i < |items| then AsScalar(cv, t, items[i]) else None;
        if r.Some? {
          st := Rest() + [Sequence(i + 1, items)];
        }
      case KeyText(k) =>
        if t.TStr? {
          r := Some(Str(k));
          st := Rest();
        } else {
          r := cv.key(t, k);
        }
      case _ =>
        r := None;
    }

    // -- Loading a value with the calls above -----------------------------------------------------

    /** Gives what FromConf gives, and consumes the value on success. */
    method Load(t: Schema) returns (r: Option<Value>)
      requires st != [] && IsOrder(order)
      modifies this
      ensures r == Expected(cv, old(Top()), t)
      ensures r.Some? ==> st == Consumed(old(st), t)
      decreases t, 3
    {
      match t
      case TList(_) => r := LoadList(t);
      case TMap(_) => r := LoadMap(t);
      case TObject(_, _) => r := LoadObject(t);
      case _ => r := Pull(t);
    }

    method LoadList(t: Schema) returns (r: Option<Value>)
      requires st != [] && IsOrder(order) && t.TList?
      modifies this
      ensures r == Expected(cv, old(Top()), t)
      ensures r.Some? ==> st == Consumed(old(st), t)
      decreases t, 2
    {
      var ok, size := BeginSequence();
      if !ok {
        return None;
      }
      ghost var items := Top().items;
      var xs: seq<Value> := [];
      for i := 0 to size
        invariant st == old(Rest()) + [Sequence(i, items)] && |xs| == i
        invariant forall j :: 0 <= j < i ==> FromConf(cv, true, t.elem, items[j]) == Some(xs[j])
      {
        var x := Load(t.elem);
        if x.None? {
          return None;
        }
        xs := xs + [x.value];
      }
      ok := EndSequence();
      assert xs == Expected(cv, old(Top()), t).value.items;
      r := if ok then Some(List(xs)) else None;
    }

    method LoadField(t: Schema, i: nat) returns (r: Option<Field>)
      requires st != [] && Top().Dictionary? && IsOrder(order) && t.TObject? && i < |t.fields|
      modifies this
      ensures r == FromField(cv, t, old(Top()).entries, i)
      ensures r.Some? ==> st == old(st)
      decreases t, 1
    {
      var f := t.fields[i];
      var ok, isPresent;
      if f.optional {
        ok, isPresent := BeginOptionalField(f.name);
      } else {
        ok := BeginField(f.name);
        isPresent := ok;
      }
      if !ok {
        return None;
      }
      var x := None;
      if isPresent {
        x := Load(f.schema);
        if x.None? {
          return None;
        }
      }
      ok := EndField();
      r := if ok then Some(Field(f.name, f.optional, x)) else None;
    }

    method LoadObject(t: Schema) returns (r: Option<Value>)
      requires st != [] && IsOrder(order) && t.TObject?
      modifies this
      ensures r == Expected(cv, old(Top()), t)
      ensures r.Some? ==> st == Consumed(old(st), t)
      decreases t, 2
    {
      var ok := BeginObject(t.typeName);
      if !ok {
        return None;
      }
      ghost var m := Top().entries;
      var fs: seq<Field> := [];
      for i := 0 to |t.fields|
        invariant st == Consumed(old(st), t) + [Dictionary(m)]
        invariant FromFields(cv, t, m, i) == Some(fs)
      {
        var f := LoadField(t, i);
        if f.None? {
          FieldsFail(cv, t, m, i + 1, |t.fields|);
          return None;
        }
        fs := fs + [f.value];
      }
      ok := EndObject();
      r := if ok then Some(Object(fs)) else None;
    }

    method LoadMap(t: Schema) returns (r: Option<Value>)
      requires st != [] && IsOrder(order) && t.TMap?
      modifies this
      ensures r == Expected(cv, old(Top()), t)
      ensures r.Some? ==> st == Consumed(old(st), t)
      decreases t, 2
    {
      var ok, size := BeginAssociativeArray();
      if !ok {
        return None;
      }
      ghost var keys, m := Top().keys, Top().entries;
      var xs: map<string, Value> := map[];
      for i := 0 to size
        invariant st == old(Rest()) + [AssociativeArray(i, keys, m)]
        invariant LoadedPairs(cv, t.elem, keys, m, i, xs)
      {
        var k, x := LoadPair(t.elem);
        if x.None? {
          return None;
        }
        if k in xs {
          return None;
        }
        xs := xs[k := x.value];
      }
      ok := EndAssociativeArray();
      AllLoaded(cv, t.elem, keys, m, xs);
      r := if ok then Some(Map(xs)) else None;
    }

    method LoadPair(e: Schema) returns (k: string, x: Option<Value>)
      requires HasPair() && IsOrder(order)
      modifies this
      ensures k == old(Top().keys[Top().pos]) && x == FromConf(cv, false, e, old(Top()).entries[k])
      ensures x.Some? ==> st == old(Rest() + [Top().(pos := Top().pos + 1)])
      decreases e, 4
    {
      var ok := BeginKeyValuePair();
      var key := Pull(TStr);
      k := key.value.s;
      x := Load(e);
      if x.Some? {
        ok := EndKeyValuePair();
        x := if ok then x else None;
      }
    }
  }

  ghost predicate LoadedPairs(cv: Conversions, e: Schema, keys: seq<string>, m: map<string, Conf>, n: nat, xs: map<string, Value>)
    requires n <= |keys| && forall i :: 0 <= i < |keys| ==> keys[i] in m
  {
    && xs.Keys == (set i | 0 <= i < n :: keys[i])
    && forall i :: 0 <= i < n ==> FromConf(cv, false, e, m[keys[i]]) == Some(xs[keys[i]])
  }

  lemma AllLoaded(cv: Conversions, e: Schema, keys: seq<string>, m: map<string, Conf>, xs: map<string, Value>)
    requires Enumerates(keys, m.Keys) && LoadedPairs(cv, e, keys, m, |keys|, xs)
    ensures FromConf(cv, false, TMap(e), CDict(m)) == Some(Map(xs))
  {
    forall k | k in m ensures k in xs && FromConf(cv, false, e, m[k]) == Some(xs[k]) {
      assert k in m.Keys;
      var i :| 0 <= i < |keys| && keys[i] == k;
    }
    assert FromConf(cv, false, TMap(e), CDict(m)).value.entries == xs;
  }

  /**
   Stores a value in a configuration value and loads it again with its type. Gives the value back
   exactly if the writer accepts it and the reader can read it; the reader's stack is then empty.
   */
  method SaveAndLoad(order: Order, toText: Conf -> string, cv: Conversions, v: Value, t: Schema)
    returns (saved: bool, r: Option<Value>, left: seq<Cursor>)
    requires IsOrder(order) && HasType(v, t)
    ensures saved <==> Writable(order, v)
    ensures r == if saved && Readable(v, t) then Some(v) else None
    ensures r.Some? ==> left == []
  {
    r, left := None, [];
    var writer := new Writer(order, toText, CBool(false));
    saved := writer.Save(v);
    if saved {
      var reader := new Reader(cv, order, writer.root);
      assert writer.root == ToConf(v);
      RoundTrip(cv, false, v, t);
      assert Expected(cv, reader.Top(), t) == FromConf(cv, false, t, ToConf(v));
      r := reader.Load(t);
      left := reader.st;
    }
  }

  lemma {:induction false} FieldsFail(cv: Conversions, t: Schema, m: map<string, Conf>, i: nat, n: nat)
    requires t.TObject? && i <= n <= |t.fields| && FromFields(cv, t, m, i).None?
    ensures FromFields(cv, t, m, n).None?
    decreases n
  {
    if i < n {
      FieldsFail(cv, t, m, i, n - 1);
    }
  }
}
