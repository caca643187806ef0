/**
 Configuration values, the typed values that are stored in them, and what storing and loading mean
 without any stack: ToConf and FromConf. The writer and the reader are proved against these two.
 */
module ConfigValues {
  import opened Basics

  /** config_value: the alternatives that the modelled values use. */
  datatype Conf =
    | CBool(b: bool) | CInt(x: int) | CStr(s: string)
    | CList(items: seq<Conf>) | CDict(entries: map<string, Conf>)

  datatype Value =
    | Bool(b: bool) | Int(x: int) | Str(s: string)
    | List(items: seq<Value>) | Map(entries: map<string, Value>) | Object(fields: seq<Field>)

  datatype Field = Field(name: string, optional: bool, value: Option<Value>)

  datatype Schema =
    | TBool | TInt | TStr | TList(elem: Schema) | TMap(elem: Schema)
    | TObject(typeName: Option<string>, fields: seq<FieldType>)  // no name for an invalid type ID

  datatype FieldType = FieldType(name: string, optional: bool, schema: Schema)

  predicate IsScalar(v: Value) {
    v.Bool? || v.Int? || v.Str?
  }

  predicate HasType(v: Value, t: Schema) {
    match t
    case TBool => v.Bool?
    case TInt => v.Int?
    case TStr => v.Str?
    case TList(e) => v.List? && forall i :: 0 <= i < |v.items| ==> HasType(v.items[i], e)
    case TMap(e) => v.Map? && forall k :: k in v.entries ==> HasType(v.entries[k], e)
    case TObject(_, fields) =>
      && v.Object? && |v.fields| == |fields| && Distinct(fields)
      && (forall i :: 0 <= i < |fields| ==> v.fields[i].name == fields[i].name)
      && (forall i :: 0 <= i < |fields| ==> v.fields[i].optional == fields[i].optional)
      && (forall i :: 0 <= i < |fields| ==> v.fields[i].value.None? ==> fields[i].optional)
      && forall i :: 0 <= i < |fields| && v.fields[i].value.Some? ==> HasType(v.fields[i].value.value, fields[i].schema)
  }

  predicate Distinct(fields: seq<FieldType>) {
    forall i, j :: 0 <= i < j < |fields| ==> fields[i].name != fields[j].name
  }

  /** The order in which a dictionary with the given keys is traversed; any order will do. */
  type Order = set<string> -> seq<string>

  ghost predicate Enumerates(keys: seq<string>, s: set<string>) {
    && (forall i :: 0 <= i < |keys| ==> keys[i] in s)
    && (forall k :: k in s ==> k in keys)
    && forall i, j :: 0 <= i < j < |keys| ==> keys[i] != keys[j]
  }

  ghost predicate IsOrder(order: Order) {
    forall s :: Enumerates(order(s), s)
  }

  // -- Storing ------------------------------------------------------------------------------

  function ToConf(v: Value): (c: Conf)
    decreases v, if v.Object? then |v.fields| + 1 else 0
  {
    match v
    case Bool(b) => CBool(b)
    case Int(x) => CInt(x)
    case Str(s) => CStr(s)
    case List(items) => CList(seq(|items|, i requires 0 <= i < |items| => ToConf(items[i])))
    case Map(entries) => CDict(map k | k in entries :: ToConf(entries[k]))
    case Object(fields) => CDict(FieldConfs(v, |fields|))
  }

  /** The entries for the present ones of the first n fields. */
  function FieldConfs(v: Value, n: nat): (m: map<string, Conf>)
    requires v.Object? && n <= |v.fields|
    decreases v, n
  {
    if n == 0 then map[]
    else if v.fields[n - 1].value.None? then FieldConfs(v, n - 1)
    else FieldConfs(v, n - 1)[v.fields[n - 1].name := ToConf(v.fields[n - 1].value.value)]
  }

  /**
   What the writer accepts: no object defines a field twice, and no map has the key that the writer
   uses for the pair under construction, unless that pair comes last.
   */
  predicate Writable(order: Order, v: Value) {
    match v
    case List(items) => forall i :: 0 <= i < |items| ==> Writable(order, items[i])
    case Map(entries) =>
      && (forall k :: k in entries ==> Writable(order, entries[k]))
      && var keys := order(entries.Keys);
         forall i :: 0 <= i < |keys| - 1 ==> keys[i] != "@tmp"
    case Object(fields) =>
      && (forall i :: 0 <= i < |fields| && fields[i].value.Some? ==> Writable(order, fields[i].value.value))
      && forall i, j :: 0 <= i < j < |fields| && fields[i].value.Some? && fields[j].value.Some? ==>
           fields[i].name != fields[j].name
    case _ => true
  }

  // -- Loading --------------------------------------------------------------------------------

  /** Conversions that config_value offers for values of another type; any functions will do. */
  datatype Conversions = Conversions(
    scalar: (Schema, Conf) -> Option<Value>,
    dictionary: Conf -> Option<map<string, Conf>>,
    key: (Schema, string) -> Option<Value>)

  function AsScalar(cv: Conversions, t: Schema, c: Conf): (r: Option<Value>) {
    match (t, c)
    case (TBool, CBool(b)) => Some(Bool(b))
    case (TInt, CInt(x)) => Some(Int(x))
    case (TStr, CStr(s)) => Some(Str(s))
    case _ => cv.scalar(t, c)
  }

  /** Elements of a list are never converted. */
  function AsDictionary(cv: Conversions, inList: bool, c: Conf): (r: Option<map<string, Conf>>) {
    if c.CDict? then Some(c.entries) else if inList then None else cv.dictionary(c)
  }

  predicate TypeClash(typeName: Option<string>, m: map<string, Conf>) {
    typeName.Some? && "@type" in m && m["@type"].CStr? && m["@type"].s != typeName.value
  }

  /** What the reader makes of a value; inList says that it is the current element of a list. */
  function FromConf(cv: Conversions, inList: bool, t: Schema, c: Conf): (r: Option<Value>)
    decreases t, if t.TObject? then |t.fields| + 1 else 0
  {
    match t
    case TList(e) =>
      if inList || !c.CList? then None
      else if forall i :: 0 <= i < |c.items| ==> FromConf(cv, true, e, c.items[i]).Some? then
        Some(List(seq(|c.items|, i requires 0 <= i < |c.items| => FromConf(cv, true, e, c.items[i]).value)))
      else None
    case TMap(e) =>
      if inList || !c.CDict? then None
      else if forall k :: k in c.entries ==> FromConf(cv, false, e, c.entries[k]).Some? then
        Some(Map(map k | k in c.entries :: FromConf(cv, false, e, c.entries[k]).value))
      else None
    case TObject(typeName, fields) =>
      (match AsDictionary(cv, inList, c)
       case None => None
       case Some(m) =>
         if TypeClash(typeName, m) then None
         else match FromFields(cv, t, m, |fields|)
           case None => None
           case Some(fs) => Some(Object(fs)))
    case _ => AsScalar(cv, t, c)
  }

  function FromFields(cv: Conversions, t: Schema, m: map<string, Conf>, n: nat): (r: Option<seq<Field>>)
    requires t.TObject? && n <= |t.fields|
    decreases t, n
  {
    if n == 0 then Some([])
    else match FromFields(cv, t, m, n - 1)
      case None => None
      case Some(fs) =>
        match FromField(cv, t, m, n - 1)
        case None => None
        case Some(f) => Some(fs + [f])
  }

  function FromField(cv: Conversions, t: Schema, m: map<string, Conf>, i: nat): (r: Option<Field>)
    requires t.TObject? && i < |t.fields|
    decreases t, i
  {
    var f := t.fields[i];
    if f.name in m then
      match FromConf(cv, false, f.schema, m[f.name])
      case None => None
      case Some(v) => Some(Field(f.name, f.optional, Some(v)))
    else if f.optional then Some(Field(f.name, true, None))
    else None
  }

  predicate IsForeignType(f: Field, typeName: Option<string>) {
    f.name == "@type" && typeName.Some? && f.value.Some? && f.value.value.Str? && f.value.value.s != typeName.value
  }

  /**
   The values that survive: no list or map is an element of a list, and no object has a string in a
   field "@type" that is not the name of its type.
   */
  predicate Readable(v: Value, t: Schema)
    requires HasType(v, t)
  {
    match t
    case TList(e) => forall i :: 0 <= i < |v.items| ==> !e.TList? && !e.TMap? && Readable(v.items[i], e)
    case TMap(e) => forall k :: k in v.entries ==> Readable(v.entries[k], e)
    case TObject(typeName, fields) =>
      && (forall i :: 0 <= i < |fields| && v.fields[i].value.Some? ==> Readable(v.fields[i].value.value, fields[i].schema))
      && forall i :: 0 <= i < |fields| ==> !IsForeignType(v.fields[i], typeName)
    case _ => true
  }

  // -- Round trip ---------------------------------------------------------------------------------

  predicate Defines(v: Value, i: nat, name: string)
    requires v.Object? && i < |v.fields|
  {
    v.fields[i].name == name && v.fields[i].value.Some?
  }

  lemma {:induction false} FieldKeys(v: Value, n: nat, name: string)
    requires v.Object? && n <= |v.fields|
    ensures name in FieldConfs(v, n) <==> exists i :: 0 <= i < n && Defines(v, i, name)
  {
    if n > 0 {
      FieldKeys(v, n - 1, name);
      assert Defines(v, n - 1, name) || forall i :: 0 <= i < n && Defines(v, i, name) ==> i < n - 1;
    }
  }

  ghost predicate DistinctNames(v: Value)
    requires v.Object?
  {
    forall i, j :: 0 <= i < j < |v.fields| ==> v.fields[i].name != v.fields[j].name
  }

  lemma {:induction false} FieldConf(v: Value, n: nat, i: nat)
    requires v.Object? && DistinctNames(v) && i < n <= |v.fields|
    ensures v.fields[i].name in FieldConfs(v, n) <==> v.fields[i].value.Some?
    ensures v.fields[i].value.Some? ==> FieldConfs(v, n)[v.fields[i].name] == ToConf(v.fields[i].value.value)
  {
    if i < n - 1 {
      FieldConf(v, n - 1, i);
      assert v.fields[i].name != v.fields[n - 1].name;
    } else {
      FieldKeys(v, n - 1, v.fields[i].name);
    }
  }

  lemma ClashIff(v: Value, typeName: Option<string>)
    requires v.Object? && DistinctNames(v)
    ensures TypeClash(typeName, ToConf(v).entries) <==>
            exists i :: 0 <= i < |v.fields| && IsForeignType(v.fields[i], typeName)
  {
    var m := FieldConfs(v, |v.fields|);
    FieldKeys(v, |v.fields|, "@type");
    forall i | 0 <= i < |v.fields| && Defines(v, i, "@type")
      ensures TypeClash(typeName, m) <==> IsForeignType(v.fields[i], typeName)
    {
      FieldConf(v, |v.fields|, i);
    }
  }

  lemma ListRoundTrip(cv: Conversions, v: Value, e: Schema)
    requires HasType(v, TList(e))
    requires forall i :: 0 <= i < |v.items| ==>
      FromConf(cv, true, e, ToConf(v.items[i])) ==
        if Readable(v.items[i], e) && !e.TList? && !e.TMap? then Some(v.items[i]) else None
    ensures FromConf(cv, false, TList(e), ToConf(v)) == if Readable(v, TList(e)) then Some(v) else None
  {
    var c := ToConf(v);
    assert forall i :: 0 <= i < |v.items| ==> c.items[i] == ToConf(v.items[i]);
    if Readable(v, TList(e)) {
      assert FromConf(cv, false, TList(e), c).value.items == v.items;
    } else {
      var i :| 0 <= i < |v.items| && !(!e.TList? && !e.TMap? && Readable(v.items[i], e));
      assert FromConf(cv, true, e, c.items[i]).None?;
    }
  }

  lemma MapRoundTrip(cv: Conversions, v: Value, e: Schema)
    requires HasType(v, TMap(e))
    requires forall k :: k in v.entries ==>
      FromConf(cv, false, e, ToConf(v.entries[k])) == if Readable(v.entries[k], e) then Some(v.entries[k]) else None
    ensures FromConf(cv, false, TMap(e), ToConf(v)) == if Readable(v, TMap(e)) then Some(v) else None
  {
    var c := ToConf(v);
    assert forall k :: k in v.entries ==> c.entries[k] == ToConf(v.entries[k]);
    if Readable(v, TMap(e)) {
      assert FromConf(cv, false, TMap(e), c).value.entries == v.entries;
    } else {
      var k :| k in v.entries && !Readable(v.entries[k], e);
      assert FromConf(cv, false, e, c.entries[k]).None?;
    }
  }

  predicate FieldReadable(v: Value, t: Schema, i: nat)
    requires HasType(v, t) && t.TObject? && i < |t.fields|
  {
    v.fields[i].value.Some? ==> Readable(v.fields[i].value.value, t.fields[i].schema)
  }

  ghost function ReadableFlags(v: Value, t: Schema): (ok: seq<bool>)
    requires HasType(v, t) && t.TObject?
    ensures |ok| == |t.fields| && forall i :: 0 <= i < |ok| ==> ok[i] == FieldReadable(v, t, i)
  {
    seq(|t.fields|, i requires 0 <= i < |t.fields| => FieldReadable(v, t, i))
  }

  lemma FieldRoundTrip(cv: Conversions, v: Value, t: Schema, i: nat)
    requires HasType(v, t) && t.TObject? && i < |t.fields|
    requires v.fields[i].value.Some? ==>
      var x, e := v.fields[i].value.value, t.fields[i].schema;
      FromConf(cv, false, e, ToConf(x)) == if Readable(x, e) then Some(x) else None
    ensures FromField(cv, t, ToConf(v).entries, i) == if FieldReadable(v, t, i) then Some(v.fields[i]) else None
  {
    FieldConf(v, |v.fields|, i);
    assert v.fields[i].name == t.fields[i].name;
  }

  lemma {:induction false} FieldsInOrder(cv: Conversions, t: Schema, m: map<string, Conf>, fs: seq<Field>, ok: seq<bool>, n: nat)
    requires t.TObject? && n <= |t.fields| == |fs| == |ok|
    requires forall i :: 0 <= i < n ==> FromField(cv, t, m, i) == if ok[i] then Some(fs[i]) else None
    ensures FromFields(cv, t, m, n) == if forall i :: 0 <= i < n ==> ok[i] then Some(fs[..n]) else None
  {
    if n > 0 {
      FieldsInOrder(cv, t, m, fs, ok, n - 1);
      assert fs[..n] == fs[..n - 1] + [fs[n - 1]];
      assert (forall i :: 0 <= i < n ==> ok[i]) <==> (forall i :: 0 <= i < n - 1 ==> ok[i]) && ok[n - 1];
    }
  }

  lemma ObjectFromFields(cv: Conversions, inList: bool, t: Schema, m: map<string, Conf>, fs: seq<Field>, ok: seq<bool>)
    requires t.TObject? && |t.fields| == |fs| == |ok|
    requires forall i :: 0 <= i < |fs| ==> FromField(cv, t, m, i) == if ok[i] then Some(fs[i]) else None
    ensures FromConf(cv, inList, t, CDict(m)) ==
              if !TypeClash(t.typeName, m) && (forall i :: 0 <= i < |ok| ==> ok[i]) then Some(Object(fs)) else None
  {
    FieldsInOrder(cv, t, m, fs, ok, |fs|);
    assert fs[..|fs|] == fs;
  }

  lemma ReadableObject(v: Value, t: Schema)
    requires HasType(v, t) && t.TObject?
    ensures Readable(v, t) <==>
            && (forall i :: 0 <= i < |t.fields| ==> ReadableFlags(v, t)[i])
            && !exists i :: 0 <= i < |v.fields| && IsForeignType(v.fields[i], t.typeName)
  {
    assert forall i :: 0 <= i < |t.fields| && v.fields[i].value.Some? && ReadableFlags(v, t)[i] ==>
      Readable(v.fields[i].value.value, t.fields[i].schema);
  }

  lemma ObjectRoundTrip(cv: Conversions, inList: bool, v: Value, t: Schema)
    requires HasType(v, t) && t.TObject?
    requires forall i :: 0 <= i < |t.fields| ==>
      FromField(cv, t, ToConf(v).entries, i) == if FieldReadable(v, t, i) then Some(v.fields[i]) else None
    ensures FromConf(cv, inList, t, ToConf(v)) == if Readable(v, t) then Some(v) else None
  {
    ReadableObject(v, t);
    ClashIff(v, t.typeName);
    ObjectFromFields(cv, inList, t, ToConf(v).entries, v.fields, ReadableFlags(v, t));
  }

  /** Loading what was stored gives the value back or fails, and tells which of the two. */
  lemma {:induction false} RoundTrip(cv: Conversions, inList: bool, v: Value, t: Schema)
    requires HasType(v, t)
    ensures FromConf(cv, inList, t, ToConf(v)) ==
              if Readable(v, t) && !(inList && (t.TList? || t.TMap?)) then Some(v) else None
    decreases v
  {
    match t
    case TList(e) =>
      forall i | 0 <= i < |v.items|
        ensures FromConf(cv, true, e, ToConf(v.items[i])) ==
                  if Readable(v.items[i], e) && !e.TList? && !e.TMap? then Some(v.items[i]) else None
      {
        RoundTrip(cv, true, v.items[i], e);
      }
      ListRoundTrip(cv, v, e);
    case TMap(e) =>
      forall k | k in v.entries
        ensures FromConf(cv, false, e, ToConf(v.entries[k])) ==
                  if Readable(v.entries[k], e) then Some(v.entries[k]) else None
      {
        RoundTrip(cv, false, v.entries[k], e);
      }
      MapRoundTrip(cv, v, e);
    case TObject(_, fields) =>
      forall i | 0 <= i < |fields|
        ensures FromField(cv, t, ToConf(v).entries, i) == if FieldReadable(v, t, i) then Some(v.fields[i]) else None
      {
        if v.fields[i].value.Some? {
          RoundTrip(cv, false, v.fields[i].value.value, fields[i].schema);
        }
        FieldRoundTrip(cv, v, t, i);
      }
      ObjectRoundTrip(cv, inList, v, t);
    case _ =>
  }

  // -- What is stored and loaded, case by case ------------------------------------------------------

  /** Each value is stored as the alternative of its kind, and containers element by element. */
  lemma StoredAs(v: Value)
    ensures v.Bool? ==> ToConf(v) == CBool(v.b)
    ensures v.Int? ==> ToConf(v) == CInt(v.x)
    ensures v.Str? ==> ToConf(v) == CStr(v.s)
    ensures v.List? ==> ToConf(v).CList? && |ToConf(v).items| == |v.items| &&
                        forall i :: 0 <= i < |v.items| ==> ToConf(v).items[i] == ToConf(v.items[i])
    ensures v.Map? ==> ToConf(v).CDict? && ToConf(v).entries.Keys == v.entries.Keys &&
                       forall k :: k in v.entries ==> ToConf(v).entries[k] == ToConf(v.entries[k])
    ensures v.Object? && DistinctNames(v) ==>
              && ToConf(v).CDict?
              && (forall k :: k in ToConf(v).entries <==> exists i :: 0 <= i < |v.fields| && Defines(v, i, k))
              && forall i :: 0 <= i < |v.fields| && v.fields[i].value.Some? ==>
                   v.fields[i].name in ToConf(v).entries &&
                   ToConf(v).entries[v.fields[i].name] == ToConf(v.fields[i].value.value)
  {
    if v.Object? && DistinctNames(v) {
      forall k ensures k in ToConf(v).entries <==> exists i :: 0 <= i < |v.fields| && Defines(v, i, k) {
        FieldKeys(v, |v.fields|, k);
      }
      forall i | 0 <= i < |v.fields| && v.fields[i].value.Some?
        ensures v.fields[i].name in ToConf(v).entries
        ensures ToConf(v).entries[v.fields[i].name] == ToConf(v.fields[i].value.value)
      {
        FieldConf(v, |v.fields|, i);
      }
    }
  }

  /** A scalar of the right kind is taken as it is, everything else goes through the conversion. */
  lemma ScalarLoads(cv: Conversions, inList: bool, c: Conf)
    ensures FromConf(cv, inList, TBool, c) == if c.CBool? then Some(Bool(c.b)) else cv.scalar(TBool, c)
    ensures FromConf(cv, inList, TInt, c) == if c.CInt? then Some(Int(c.x)) else cv.scalar(TInt, c)
    ensures FromConf(cv, inList, TStr, c) == if c.CStr? then Some(Str(c.s)) else cv.scalar(TStr, c)
  {
  }

  /** Lists and maps are loaded from their own kind only, outside lists only, and completely. */
  lemma ContainerLoads(cv: Conversions, inList: bool, e: Schema, c: Conf)
    ensures FromConf(cv, inList, TList(e), c).Some? <==>
            !inList && c.CList? && forall i :: 0 <= i < |c.items| ==> FromConf(cv, true, e, c.items[i]).Some?
    ensures FromConf(cv, inList, TMap(e), c).Some? <==>
            !inList && c.CDict? && forall k :: k in c.entries ==> FromConf(cv, false, e, c.entries[k]).Some?
    ensures match FromConf(cv, inList, TList(e), c)
            case None => true
            case Some(v) =>
              && v.List? && |v.items| == |c.items|
              && forall i :: 0 <= i < |c.items| ==> FromConf(cv, true, e, c.items[i]) == Some(v.items[i])
    ensures match FromConf(cv, inList, TMap(e), c)
            case None => true
            case Some(v) =>
              && v.Map? && v.entries.Keys == c.entries.Keys
              && forall k :: k in c.entries ==> FromConf(cv, false, e, c.entries[k]) == Some(v.entries[k])
  {
  }

  /** A field loads if it is there and its value loads, or if it is optional and not there. */
  predicate Loads(cv: Conversions, f: FieldType, m: map<string, Conf>) {
    if f.name in m then FromConf(cv, false, f.schema, m[f.name]).Some? else f.optional
  }

  predicate IsLoaded(cv: Conversions, f: FieldType, m: map<string, Conf>, x: Field) {
    && x.name == f.name && x.optional == f.optional
    && x.value == if f.name in m then FromConf(cv, false, f.schema, m[f.name]) else None
  }

  lemma {:induction false} FieldsLoad(cv: Conversions, t: Schema, m: map<string, Conf>, n: nat)
    requires t.TObject? && n <= |t.fields|
    ensures FromFields(cv, t, m, n).Some? <==> forall i :: 0 <= i < n ==> Loads(cv, t.fields[i], m)
    ensures match FromFields(cv, t, m, n)
            case None => true
            case Some(fs) => |fs| == n && forall i :: 0 <= i < n ==> IsLoaded(cv, t.fields[i], m, fs[i])
    decreases n
  {
    if n > 0 {
      FieldsLoad(cv, t, m, n - 1);
    }
  }

  /**
   An object loads from a dictionary, or outside lists from what converts to one, if its type does not
   clash and all fields load.
   */
  lemma ObjectLoads(cv: Conversions, inList: bool, t: Schema, c: Conf)
    requires t.TObject?
    ensures !c.CDict? && inList ==> FromConf(cv, inList, t, c) == None
    ensures var d := if c.CDict? then Some(c.entries) else cv.dictionary(c);
            c.CDict? || !inList ==>
              && (FromConf(cv, inList, t, c).Some? <==>
                  && d.Some? && !TypeClash(t.typeName, d.value)
                  && forall i :: 0 <= i < |t.fields| ==> Loads(cv, t.fields[i], d.value))
              && match FromConf(cv, inList, t, c)
                 case None => true
                 case Some(v) =>
                   && v.Object? && |v.fields| == |t.fields|
                   && forall i :: 0 <= i < |t.fields| ==> IsLoaded(cv, t.fields[i], d.value, v.fields[i])
  {
    var d := if c.CDict? then Some(c.entries) else cv.dictionary(c);
    if d.Some? {
      FieldsLoad(cv, t, d.value, |t.fields|);
    }
  }
}
