/** The persistence codec: domain values to JSON and back, with every structure under one tag. */
module Codec {
  import opened Base

  datatype Json =
    | JNull | JBool(flag: bool) | JInt(number: int) | JFloat(measure: real) | JString(text: string)
    | JArray(items: seq<Json>) | JObject(members: map<string, Json>)

  /** Domain values. Decimals, instants and dates are their canonical texts; a dictionary keeps its
      insertion order. */
  datatype Value =
    | Nothing | Flag(flag: bool) | Whole(number: int) | Measure(measure: real) | Text(text: string)
    | DecimalOf(decimal: string) | InstantOf(instant: string) | DateOf(date: string)
    | Member(enumeration: string, name: string)
    | Record(kind: string, fields: map<string, Value>)
    | Tuple(tuple: seq<Value>) | FrozenSet(elements: set<Value>) | List(list: seq<Value>)
    | Dictionary(entries: seq<(Value, Value)>)

  /** What the codec takes from elsewhere: the order of `sorted(..., key=repr)`, the text `str` gives a JSON
      value, which texts parse, and the registered enumerations and dataclasses with their fields. */
  datatype Library = Library(
    order: set<Value> -> seq<Value>, str: Json -> string,
    isDecimal: string -> bool, isInstant: string -> bool, isDate: string -> bool,
    enumerations: map<string, set<string>>, records: map<string, set<string>>)

  ghost predicate Sound(l: Library) {
    && (forall s, i :: 0 <= i < |l.order(s)| ==> l.order(s)[i] in s)
    && (forall s, x :: x in s ==> x in l.order(s))
    && (forall t :: l.str(JString(t)) == t)
  }

  datatype Tag = DecimalTag | InstantTag | DateTag | EnumTag | TypeTag | TupleTag | SetTag | ListTag | MapTag

  function Name(t: Tag): string {
    match t
    case DecimalTag => "__decimal__"
    case InstantTag => "__datetime__"
    case DateTag => "__date__"
    case EnumTag => "__enum__"
    case TypeTag => "__type__"
    case TupleTag => "__tuple__"
    case SetTag => "__frozenset__"
    case ListTag => "__list__"
    case MapTag => "__map__"
  }

  const VALUE := "value"
  const FIELDS := "fields"

  /** Names are told apart by their length and third letter. */
  lemma NamesDiffer()
    ensures forall t, u :: Name(t) == Name(u) ==> t == u
    ensures forall t :: Name(t) != VALUE && Name(t) != FIELDS
  {
    assert |Name(DecimalTag)| == 11 && |Name(InstantTag)| == 12 && |Name(DateTag)| == 8 && |Name(EnumTag)| == 8;
    assert |Name(TypeTag)| == 8 && |Name(TupleTag)| == 9 && |Name(SetTag)| == 13 && |Name(ListTag)| == 8
           && |Name(MapTag)| == 7;
    assert Name(DateTag)[2] == 'd' && Name(EnumTag)[2] == 'e' && Name(TypeTag)[2] == 't' && Name(ListTag)[2] == 'l';
  }

  /** The tags are looked for in a fixed order. */
  function FirstTag(m: map<string, Json>): (r: Option<Tag>)
    ensures r.Some? ==> Name(r.value) in m
  {
    if Name(DecimalTag) in m then Some(DecimalTag) else if Name(InstantTag) in m then Some(InstantTag) else
    if Name(DateTag) in m then Some(DateTag) else if Name(EnumTag) in m then Some(EnumTag) else
    if Name(TypeTag) in m then Some(TypeTag) else if Name(TupleTag) in m then Some(TupleTag) else
    if Name(SetTag) in m then Some(SetTag) else if Name(ListTag) in m then Some(ListTag) else
    if Name(MapTag) in m then Some(MapTag) else None
  }

  ghost predicate OnlyTag(m: map<string, Json>, t: Tag) { forall u :: Name(u) in m <==> u == t }

  lemma OnlyIsFirst(m: map<string, Json>, t: Tag)
    requires OnlyTag(m, t)
    ensures FirstTag(m) == Some(t)
  {
    hide Name;
  }

  /** An object with one tag and what goes with it. */
  function Tagged(t: Tag, j: Json): Json { JObject(map[Name(t) := j]) }

  lemma TaggedOnce(t: Tag, j: Json, more: Json)
    ensures OnlyTag(Tagged(t, j).members, t)
    ensures OnlyTag(map[Name(t) := j, VALUE := more], t) && OnlyTag(map[Name(t) := j, FIELDS := more], t)
    ensures map[Name(t) := j, VALUE := more][Name(t)] == j && map[Name(t) := j, FIELDS := more][Name(t)] == j
  {
    NamesDiffer();
    hide Name;
  }

  // ----- encoding

  function Encode(v: Value, l: Library): Json
    requires Sound(l)
    decreases v
  {
    match v
    case Member(e, name) => JObject(map[Name(EnumTag) := JString(e), VALUE := JString(name)])
    case Nothing => JNull
    case Flag(b) => JBool(b)
    case Whole(n) => JInt(n)
    case Measure(x) => JFloat(x)
    case Text(t) => JString(t)
    case DecimalOf(t) => Tagged(DecimalTag, JString(t))
    case InstantOf(t) => Tagged(InstantTag, JString(t))
    case DateOf(t) => Tagged(DateTag, JString(t))
    case Record(kind, fields) =>
      JObject(map[Name(TypeTag) := JString(kind), FIELDS := JObject(map f | f in fields :: Encode(fields[f], l))])
    case Tuple(xs) => Tagged(TupleTag, JArray(seq(|xs|, i requires 0 <= i < |xs| => Encode(xs[i], l))))
    case FrozenSet(s) =>
      Tagged(SetTag, JArray(seq(|l.order(s)|, i requires 0 <= i < |l.order(s)| => Encode(l.order(s)[i], l))))
    case List(xs) => Tagged(ListTag, JArray(seq(|xs|, i requires 0 <= i < |xs| => Encode(xs[i], l))))
    case Dictionary(entries) =>
      Tagged(MapTag, JArray(seq(|entries|, i requires 0 <= i < |entries| =>
        JArray([Encode(entries[i].0, l), Encode(entries[i].1, l)]))))
  }

  // ----- decoding

  /** Every element decoded, or nothing when one fails. */
  function DecodeAll(js: seq<Json>, l: Library): (r: Option<seq<Value>>)
    decreases js
  {
    if |js| == 0 then Some([]) else
    match Decode(js[0], l)
    case None => None
    case Some(v) =>
      match DecodeAll(js[1..], l)
      case None => None
      case Some(vs) => Some([v] + vs)
  }

  function Elements(vs: seq<Value>): set<Value> { set v | v in vs }

  /** `d[key] = value`. */
  function Put(entries: seq<(Value, Value)>, key: Value, value: Value): seq<(Value, Value)> {
    if |entries| == 0 then [(key, value)]
    else if entries[0].0 == key then [(key, value)] + entries[1..]
    else [entries[0]] + Put(entries[1..], key, value)
  }

  function DecodePairs(js: seq<Json>, done: seq<(Value, Value)>, l: Library): Option<seq<(Value, Value)>>
    decreases js
  {
    if |js| == 0 then Some(done) else
    if !js[0].JArray? || |js[0].items| != 2 then None else
    match Decode(js[0].items[0], l)
    case None => None
    case Some(k) =>
      match Decode(js[0].items[1], l)
      case None => None
      case Some(v) => DecodePairs(js[1..], Put(done, k, v), l)
  }

  function DecodeRecord(kind: string, fields: Json, l: Library): Option<Value>
    decreases fields
  {
    if kind !in l.records || !fields.JObject? then None else
    var raw := fields.members;
    if raw.Keys != l.records[kind] || (exists f :: f in raw && Decode(raw[f], l).None?) then None
    else Some(Record(kind, map f | f in raw :: Decode(raw[f], l).value))
  }

  /** Scalars stand for themselves; an object is read by its first tag, and refused without one. */
  function Decode(j: Json, l: Library): Option<Value>
    decreases j
  {
    match j
    case JNull => Some(Nothing)
    case JBool(b) => Some(Flag(b))
    case JInt(n) => Some(Whole(n))
    case JFloat(x) => Some(Measure(x))
    case JString(t) => Some(Text(t))
    case JArray(_) => None
    case JObject(m) =>
      match FirstTag(m)
      case None => None
      case Some(tag) =>
        var body := m[Name(tag)];
        match tag
        case DecimalTag => if l.isDecimal(l.str(body)) then Some(DecimalOf(l.str(body))) else None
        case InstantTag => if l.isInstant(l.str(body)) then Some(InstantOf(l.str(body))) else None
        case DateTag => if l.isDate(l.str(body)) then Some(DateOf(l.str(body))) else None
        case EnumTag =>
          if l.str(body) in l.enumerations && VALUE in m && m[VALUE].JString? && m[VALUE].text in l.enumerations[l.str(body)]
          then Some(Member(l.str(body), m[VALUE].text)) else None
        case TypeTag => if FIELDS in m then DecodeRecord(l.str(body), m[FIELDS], l) else None
        case MapTag =>
          if !body.JArray? then None else
          (match DecodePairs(body.items, [], l) case None => None case Some(entries) => Some(Dictionary(entries)))
        case _ =>
          if !body.JArray? then None else
          match DecodeAll(body.items, l)
          case None => None
          case Some(vs) => Some(if tag.TupleTag? then Tuple(vs) else if tag.ListTag? then List(vs) else FrozenSet(Elements(vs)))
  }

  // ----- the values the codec is for

  ghost predicate WellFormed(v: Value, l: Library)
    decreases v
  {
    match v
    case Member(e, name) => e in l.enumerations && name in l.enumerations[e]
    case DecimalOf(t) => l.isDecimal(t)
    case InstantOf(t) => l.isInstant(t)
    case DateOf(t) => l.isDate(t)
    case Record(kind, fields) => kind in l.records && fields.Keys == l.records[kind]
                                 && forall f :: f in fields ==> WellFormed(fields[f], l)
    case Tuple(xs) => forall i :: 0 <= i < |xs| ==> WellFormed(xs[i], l)
    case FrozenSet(s) => forall x :: x in s ==> WellFormed(x, l)
    case List(xs) => forall i :: 0 <= i < |xs| ==> WellFormed(xs[i], l)
    case Dictionary(entries) =>
      && (forall i, j :: 0 <= i < j < |entries| ==> entries[i].0 != entries[j].0)
      && (forall i :: 0 <= i < |entries| ==> WellFormed(entries[i].0, l) && WellFormed(entries[i].1, l))
    case _ => true
  }

  ghost predicate ComesBack(v: Value, l: Library)
    requires Sound(l)
  {
    Decode(Encode(v, l), l) == Some(v)
  }

  lemma {:induction false} AllComeBack(vs: seq<Value>, js: seq<Json>, l: Library)
    requires Sound(l) && |js| == |vs|
    requires forall i :: 0 <= i < |vs| ==> js[i] == Encode(vs[i], l) && ComesBack(vs[i], l)
    ensures DecodeAll(js, l) == Some(vs)
  {
    hide Encode, Decode;
    if |vs| > 0 {
      assert ComesBack(vs[0], l);
      AllComeBack(vs[1..], js[1..], l);
      assert [vs[0]] + vs[1..] == vs;
    }
  }

  lemma {:induction false} PutNew(entries: seq<(Value, Value)>, key: Value, value: Value)
    requires forall i :: 0 <= i < |entries| ==> entries[i].0 != key
    ensures Put(entries, key, value) == entries + [(key, value)]
  {
    if |entries| > 0 {
      PutNew(entries[1..], key, value);
    }
  }

  lemma {:induction false} PairsComeBack(entries: seq<(Value, Value)>, js: seq<Json>, done: seq<(Value, Value)>,
                                         l: Library)
    requires Sound(l) && |js| == |entries|
    requires forall i :: 0 <= i < |entries| ==>
               && js[i] == JArray([Encode(entries[i].0, l), Encode(entries[i].1, l)])
               && ComesBack(entries[i].0, l) && ComesBack(entries[i].1, l)
    requires forall i, j :: 0 <= i < j < |entries| ==> entries[i].0 != entries[j].0
    requires forall i, j :: 0 <= i < |done| && 0 <= j < |entries| ==> done[i].0 != entries[j].0
    ensures DecodePairs(js, done, l) == Some(done + entries)
  {
    hide Encode, Decode;
    if |entries| == 0 {
      assert done + entries == done;
    } else {
      var (k, v) := entries[0];
      assert ComesBack(k, l) && ComesBack(v, l);
      PutNew(done, k, v);
      PairsComeBack(entries[1..], js[1..], done + [(k, v)], l);
      assert done + [(k, v)] + entries[1..] == done + entries;
    }
  }

  /** What is encoded comes back: for every tree of domain values. */
  lemma {:induction false} RoundTrip(v: Value, l: Library)
    requires Sound(l) && WellFormed(v, l)
    ensures Decode(Encode(v, l), l) == Some(v)
    decreases v
  {
    match v
    case Record(kind, fields) => RecordComesBack(kind, fields, l);
    case Tuple(xs) => SequenceComesBack(v, xs, l);
    case List(xs) => SequenceComesBack(v, xs, l);
    case FrozenSet(s) => SetComesBack(s, l);
    case Dictionary(entries) => DictionaryComesBack(entries, l);
    case _ => LeafComesBack(v, l);
  }

  /** The tag an encoding carries, and that it carries no other. */
  lemma EncodedTag(v: Value, l: Library)
    requires Sound(l) && TagOf(v).Some?
    ensures Encode(v, l).JObject? && OnlyTag(Encode(v, l).members, TagOf(v).value)
    ensures FirstTag(Encode(v, l).members) == TagOf(v)
  {
    hide Name, FirstTag, OnlyTag;
    var m, t := Encode(v, l).members, TagOf(v).value;
    if v.Record? {
      TaggedOnce(t, JString(v.kind), m[FIELDS]);
      assert m == map[Name(t) := JString(v.kind), FIELDS := m[FIELDS]];
    } else if v.Member? {
      TaggedOnce(t, JString(v.enumeration), JString(v.name));
    } else {
      TaggedOnce(t, m[Name(t)], JNull);
    }
    OnlyIsFirst(m, t);
  }

  lemma LeafComesBack(v: Value, l: Library)
    requires Sound(l) && WellFormed(v, l)
    requires !v.Record? && !v.Tuple? && !v.List? && !v.FrozenSet? && !v.Dictionary?
    ensures ComesBack(v, l)
  {
    hide FirstTag, Name;
    NamesDiffer();
    if TagOf(v).Some? {
      EncodedTag(v, l);
    }
  }

  lemma {:induction false} RecordComesBack(kind: string, fields: map<string, Value>, l: Library)
    requires Sound(l) && WellFormed(Record(kind, fields), l)
    ensures ComesBack(Record(kind, fields), l)
    decreases Record(kind, fields), 0
  {
    forall f | f in fields ensures ComesBack(fields[f], l) {
      RoundTrip(fields[f], l);
    }
    var raw := map f | f in fields :: Encode(fields[f], l);
    FieldsComeBack(kind, fields, raw, l);
    assert Encode(Record(kind, fields), l) == JObject(map[Name(TypeTag) := JString(kind), FIELDS := JObject(raw)]);
    RecordRead(kind, raw, l);
  }

  lemma RecordRead(kind: string, raw: map<string, Json>, l: Library)
    requires Sound(l)
    ensures Decode(JObject(map[Name(TypeTag) := JString(kind), FIELDS := JObject(raw)]), l) == DecodeRecord(kind, JObject(raw), l)
  {
    NamesDiffer();
    hide Name, DecodeRecord, FirstTag;
    var m := map[Name(TypeTag) := JString(kind), FIELDS := JObject(raw)];
    TaggedOnce(TypeTag, JString(kind), JObject(raw));
    OnlyIsFirst(m, TypeTag);
    assert m[Name(TypeTag)] == JString(kind) && m[FIELDS] == JObject(raw);
  }

  lemma ArrayRead(t: Tag, js: seq<Json>, l: Library)
    requires t in {TupleTag, SetTag, ListTag} && DecodeAll(js, l).Some?
    ensures var vs := DecodeAll(js, l).value;
            Decode(Tagged(t, JArray(js)), l)
            == Some(if t.TupleTag? then Tuple(vs) else if t.ListTag? then List(vs) else FrozenSet(Elements(vs)))
  {
    hide Name, DecodeAll, FirstTag, Elements;
    TaggedOnce(t, JArray(js), JNull);
    OnlyIsFirst(Tagged(t, JArray(js)).members, t);
  }

  lemma FieldsComeBack(kind: string, fields: map<string, Value>, raw: map<string, Json>, l: Library)
    requires Sound(l) && kind in l.records && fields.Keys == l.records[kind] && raw.Keys == fields.Keys
    requires forall f :: f in fields ==> raw[f] == Encode(fields[f], l) && ComesBack(fields[f], l)
    ensures DecodeRecord(kind, JObject(raw), l) == Some(Record(kind, fields))
  {
    hide Encode, Decode;
    assert forall f :: f in raw ==> Decode(raw[f], l) == Some(fields[f]);
    assert (map f | f in raw :: Decode(raw[f], l).value) == fields;
  }

  lemma {:induction false} SequenceComesBack(v: Value, xs: seq<Value>, l: Library)
    requires Sound(l) && WellFormed(v, l) && (v == Tuple(xs) || v == List(xs))
    ensures ComesBack(v, l)
    decreases v, 0
  {
    forall i | 0 <= i < |xs| ensures ComesBack(xs[i], l) {
      RoundTrip(xs[i], l);
    }
    var js := seq(|xs|, i requires 0 <= i < |xs| => Encode(xs[i], l));
    AllComeBack(xs, js, l);
    assert Encode(v, l) == Tagged(if v.Tuple? then TupleTag else ListTag, JArray(js));
    ArrayRead(if v.Tuple? then TupleTag else ListTag, js, l);
  }

  lemma {:induction false} SetComesBack(s: set<Value>, l: Library)
    requires Sound(l) && WellFormed(FrozenSet(s), l)
    ensures ComesBack(FrozenSet(s), l)
    decreases FrozenSet(s), 0
  {
    var xs := l.order(s);
    forall i | 0 <= i < |xs| ensures ComesBack(xs[i], l) {
      RoundTrip(xs[i], l);
    }
    var js := Encode(FrozenSet(s), l).members[Name(SetTag)].items;
    AllComeBack(xs, js, l);
    assert Elements(xs) == s;
    ArrayRead(SetTag, js, l);
  }

  lemma {:induction false} DictionaryComesBack(entries: seq<(Value, Value)>, l: Library)
    requires Sound(l) && WellFormed(Dictionary(entries), l)
    ensures ComesBack(Dictionary(entries), l)
    decreases Dictionary(entries), 0
  {
    forall i | 0 <= i < |entries| ensures ComesBack(entries[i].0, l) && ComesBack(entries[i].1, l) {
      assert entries[i].0 < entries[i] && entries[i].1 < entries[i];
      RoundTrip(entries[i].0, l);
      RoundTrip(entries[i].1, l);
    }
    var js := seq(|entries|, i requires 0 <= i < |entries| => JArray([Encode(entries[i].0, l), Encode(entries[i].1, l)]));
    PairsComeBack(entries, js, [], l);
    assert [] + entries == entries;
    hide Name, FirstTag, DecodePairs, ComesBack;
    assert Encode(Dictionary(entries), l) == Tagged(MapTag, JArray(js));
    DictionaryRead(entries, js, l);
  }

  lemma DictionaryRead(entries: seq<(Value, Value)>, js: seq<Json>, l: Library)
    requires Sound(l) && Encode(Dictionary(entries), l) == Tagged(MapTag, JArray(js))
    requires DecodePairs(js, [], l) == Some(entries)
    ensures ComesBack(Dictionary(entries), l)
  {
    hide Encode, Name, FirstTag, DecodePairs;
    TaggedOnce(MapTag, JArray(js), JNull);
    OnlyIsFirst(Tagged(MapTag, JArray(js)).members, MapTag);
  }

  /** No two values share an encoding. */
  lemma EncodeIsInjective(v: Value, w: Value, l: Library)
    requires Sound(l) && WellFormed(v, l) && WellFormed(w, l) && Encode(v, l) == Encode(w, l)
    ensures v == w
  {
    RoundTrip(v, l);
    RoundTrip(w, l);
  }

  function TagOf(v: Value): Option<Tag> {
    match v
    case DecimalOf(_) => Some(DecimalTag)
    case InstantOf(_) => Some(InstantTag)
    case DateOf(_) => Some(DateTag)
    case Member(_, _) => Some(EnumTag)
    case Record(_, _) => Some(TypeTag)
    case Tuple(_) => Some(TupleTag)
    case FrozenSet(_) => Some(SetTag)
    case List(_) => Some(ListTag)
    case Dictionary(_) => Some(MapTag)
    case _ => None
  }

  /** JSON as the codec emits it: every object carries exactly one tag, arrays stand only under container
      tags, and an object without a tag is only ever the fields of a record, so no user key and no field
      name is read as a tag. */
  ghost predicate Emitted(j: Json)
    decreases j
  {
    match j
    case JArray(_) => false
    case JObject(m) =>
      exists t :: OnlyTag(m, t) && (
        match t
        case MapTag =>
          m[Name(t)].JArray? && forall i :: 0 <= i < |m[Name(t)].items| ==>
            && m[Name(t)].items[i].JArray? && |m[Name(t)].items[i].items| == 2
            && Emitted(m[Name(t)].items[i].items[0]) && Emitted(m[Name(t)].items[i].items[1])
        case TypeTag =>
          m.Keys == {Name(t), FIELDS} && m[FIELDS].JObject? && forall f :: f in m[FIELDS].members ==> Emitted(m[FIELDS].members[f])
        case EnumTag => m.Keys == {Name(t), VALUE}
        case DecimalTag => m.Keys == {Name(t)} && m[Name(t)].JString?
        case InstantTag => m.Keys == {Name(t)} && m[Name(t)].JString?
        case DateTag => m.Keys == {Name(t)} && m[Name(t)].JString?
        case _ => m.Keys == {Name(t)} && m[Name(t)].JArray? && forall i :: 0 <= i < |m[Name(t)].items| ==> Emitted(m[Name(t)].items[i]))
    case _ => true
  }

  lemma EmittedArray(t: Tag, js: seq<Json>)
    requires t in {TupleTag, SetTag, ListTag} && forall i :: 0 <= i < |js| ==> Emitted(js[i])
    ensures Emitted(Tagged(t, JArray(js)))
  {
    hide Name, OnlyTag;
    TaggedOnce(t, JArray(js), JNull);
    assert OnlyTag(Tagged(t, JArray(js)).members, t);
  }

  lemma EmittedPairs(js: seq<Json>)
    requires forall i :: 0 <= i < |js| ==>
               js[i].JArray? && |js[i].items| == 2 && Emitted(js[i].items[0]) && Emitted(js[i].items[1])
    ensures Emitted(Tagged(MapTag, JArray(js)))
  {
    hide Name, OnlyTag;
    TaggedOnce(MapTag, JArray(js), JNull);
    assert OnlyTag(Tagged(MapTag, JArray(js)).members, MapTag);
  }

  lemma EmittedRecord(kind: string, raw: map<string, Json>)
    requires forall f :: f in raw ==> Emitted(raw[f])
    ensures Emitted(JObject(map[Name(TypeTag) := JString(kind), FIELDS := JObject(raw)]))
  {
    NamesDiffer();
    hide Name, OnlyTag;
    var m := map[Name(TypeTag) := JString(kind), FIELDS := JObject(raw)];
    TaggedOnce(TypeTag, JString(kind), JObject(raw));
    assert OnlyTag(m, TypeTag) && m.Keys == {Name(TypeTag), FIELDS};
  }

  lemma EmittedLeaf(v: Value, l: Library)
    requires Sound(l) && !v.Record? && !v.Tuple? && !v.List? && !v.FrozenSet? && !v.Dictionary?
    ensures Emitted(Encode(v, l))
  {
    hide Name, OnlyTag, FirstTag;
    if TagOf(v).Some? {
      EncodedTag(v, l);
    }
    if v.Member? {
      assert Encode(v, l).members.Keys == {Name(EnumTag), VALUE};
    }
  }

  lemma {:induction false} EncodeEmits(v: Value, l: Library)
    requires Sound(l)
    ensures Emitted(Encode(v, l))
    decreases v
  {
    hide Emitted, Name;
    match v
    case Record(kind, fields) =>
      forall f | f in fields ensures Emitted(Encode(fields[f], l)) { EncodeEmits(fields[f], l); }
      EmittedRecord(kind, map f | f in fields :: Encode(fields[f], l));
    case Tuple(xs) =>
      forall i | 0 <= i < |xs| ensures Emitted(Encode(xs[i], l)) { EncodeEmits(xs[i], l); }
      EmittedArray(TupleTag, Encode(v, l).members[Name(TupleTag)].items);
    case List(xs) =>
      forall i | 0 <= i < |xs| ensures Emitted(Encode(xs[i], l)) { EncodeEmits(xs[i], l); }
      EmittedArray(ListTag, Encode(v, l).members[Name(ListTag)].items);
    case FrozenSet(s) =>
      forall i | 0 <= i < |l.order(s)| ensures Emitted(Encode(l.order(s)[i], l)) { EncodeEmits(l.order(s)[i], l); }
      EmittedArray(SetTag, Encode(v, l).members[Name(SetTag)].items);
    case Dictionary(entries) =>
      forall i | 0 <= i < |entries| ensures Emitted(Encode(entries[i].0, l)) && Emitted(Encode(entries[i].1, l)) {
        assert entries[i].0 < entries[i] && entries[i].1 < entries[i];
        EncodeEmits(entries[i].0, l);
        EncodeEmits(entries[i].1, l);
      }
      EmittedPairs(Encode(v, l).members[Name(MapTag)].items);
    case _ => EmittedLeaf(v, l);
  }

  /** decode_domain refuses a value of another type than the one expected. */
  function DecodeDomain(j: Json, expected: Option<string>, l: Library): Option<Value> {
    match Decode(j, l)
    case None => None
    case Some(v) => if expected.None? || (v.Record? && v.kind == expected.value) then Some(v) else None
  }

  /** A record comes back under its own type and under no other. */
  lemma RecordsComeBackTyped(v: Value, kind: string, l: Library)
    requires Sound(l) && WellFormed(v, l) && v.Record?
    ensures DecodeDomain(Encode(v, l), Some(kind), l) == if v.kind == kind then Some(v) else None
  {
    RoundTrip(v, l);
  }

  // ----- the stored form

  ghost predicate Elementwise(vs: seq<Value>, js: seq<Json>, l: Library)
    requires Sound(l)
  {
    |js| == |vs| && forall i :: 0 <= i < |js| ==> js[i] == Encode(vs[i], l)
  }

  ghost predicate Pairwise(entries: seq<(Value, Value)>, js: seq<Json>, l: Library)
    requires Sound(l)
  {
    |js| == |entries| && forall i :: 0 <= i < |js| ==> js[i] == JArray([Encode(entries[i].0, l), Encode(entries[i].1, l)])
  }

  ghost predicate Fieldwise(fields: map<string, Value>, raw: map<string, Json>, l: Library)
    requires Sound(l)
  {
    raw.Keys == fields.Keys && forall f :: f in fields ==> raw[f] == Encode(fields[f], l)
  }

  /** The stored form of every kind of value, tag by tag; containers keep their elements in order. */
  ghost predicate Stored(v: Value, j: Json, l: Library)
    requires Sound(l)
  {
    match v
    case Nothing => j == JNull
    case Flag(b) => j == JBool(b)
    case Whole(n) => j == JInt(n)
    case Measure(x) => j == JFloat(x)
    case Text(t) => j == JString(t)
    case DecimalOf(t) => j == JObject(map["__decimal__" := JString(t)])
    case InstantOf(t) => j == JObject(map["__datetime__" := JString(t)])
    case DateOf(t) => j == JObject(map["__date__" := JString(t)])
    case Member(e, name) => j == JObject(map["__enum__" := JString(e), "value" := JString(name)])
    case Record(kind, fields) =>
      exists raw :: j == JObject(map["__type__" := JString(kind), "fields" := JObject(raw)]) && Fieldwise(fields, raw, l)
    case Tuple(xs) => exists js :: j == JObject(map["__tuple__" := JArray(js)]) && Elementwise(xs, js, l)
    case FrozenSet(s) => exists js :: j == JObject(map["__frozenset__" := JArray(js)]) && Elementwise(l.order(s), js, l)
    case List(xs) => exists js :: j == JObject(map["__list__" := JArray(js)]) && Elementwise(xs, js, l)
    case Dictionary(entries) => exists js :: j == JObject(map["__map__" := JArray(js)]) && Pairwise(entries, js, l)
  }

  lemma StoredForm(v: Value, l: Library)
    requires Sound(l)
    ensures Stored(v, Encode(v, l), l)
  {
    var j := Encode(v, l);
    if v.Record? {
      assert Fieldwise(v.fields, j.members["fields"].members, l);
    } else if v.Tuple? {
      assert Elementwise(v.tuple, j.members["__tuple__"].items, l);
    } else if v.FrozenSet? {
      assert Elementwise(l.order(v.elements), j.members["__frozenset__"].items, l);
    } else if v.List? {
      assert Elementwise(v.list, j.members["__list__"].items, l);
    } else if v.Dictionary? {
      assert Pairwise(v.entries, j.members["__map__"].items, l);
    }
  }

  /** What is refused: an array on its own; an object without a tag; a text that does not parse; an enumeration or
      a type that is not registered, a name that is no member, fields that are not those of the type. */
  lemma Refused(m: map<string, Json>, l: Library)
    ensures forall js :: Decode(JArray(js), l) == None
    ensures m.Keys !! {"__decimal__", "__datetime__", "__date__", "__enum__", "__type__", "__tuple__", "__frozenset__", "__list__",
                       "__map__"} ==>
              Decode(JObject(m), l) == None
    ensures "__decimal__" in m && !l.isDecimal(l.str(m["__decimal__"])) ==> Decode(JObject(m), l) == None
    ensures OnlyTag(m, InstantTag) ==> "__datetime__" in m && (!l.isInstant(l.str(m["__datetime__"])) ==> Decode(JObject(m), l) == None)
    ensures OnlyTag(m, DateTag) ==> "__date__" in m && (!l.isDate(l.str(m["__date__"])) ==> Decode(JObject(m), l) == None)
  {
    if OnlyTag(m, InstantTag) {
      OnlyIsFirst(m, InstantTag);
      assert Name(InstantTag) in m;
    }
    if OnlyTag(m, DateTag) {
      OnlyIsFirst(m, DateTag);
      assert Name(DateTag) in m;
    }
  }

  lemma RefusedRecords(m: map<string, Json>, l: Library)
    requires Decode(JObject(m), l).Some?
    ensures OnlyTag(m, EnumTag) ==>
              && "__enum__" in m && l.str(m["__enum__"]) in l.enumerations && "value" in m && m["value"].JString?
              && m["value"].text in l.enumerations[l.str(m["__enum__"])]
    ensures OnlyTag(m, TypeTag) ==>
              && "__type__" in m && l.str(m["__type__"]) in l.records && "fields" in m && m["fields"].JObject?
              && m["fields"].members.Keys == l.records[l.str(m["__type__"])]
  {
    if OnlyTag(m, EnumTag) {
      OnlyIsFirst(m, EnumTag);
      assert Name(EnumTag) in m;
    }
    if OnlyTag(m, TypeTag) {
      OnlyIsFirst(m, TypeTag);
      assert Name(TypeTag) in m;
    }
  }
}
