/** The wire codec of the execution protocol: values to JSON and back, arrays as marked
    objects. */
module WireCodec {
  import opened Wrappers
  import opened Blob

  const MAX_BYTES: nat := 64 * 1024 * 1024
  const ARRAY: string := "__nexus_array__"

  /** What JSON writes and reads as itself. */
  datatype Atom = Null | Bool(b: bool) | Int(i: int) | Real(r: real) | Text(s: string)

  /** An array's element type: byte order, kind and size. */
  datatype Dtype = Dtype(order: char, kind: char, size: nat)

  /** A key of an object, or one that is not a string. */
  datatype Key = Name(s: string) | OtherKey

  /** A value to be sent. `Scalar` is an array scalar, `Opaque` is anything that JSON cannot
      write: a non-finite number, bytes, a set. */
  datatype Value =
    | Plain(atom: Atom)
    | Scalar(atom: Atom)
    | List(items: seq<Value>)
    | Tuple(items: seq<Value>)
    | Object(fields: Fields)
    | Array(dtype: Dtype, shape: seq<nat>, raw: seq<byte>)
    | Opaque

  /** The entries of an object, in order. */
  datatype Fields = NoFields | Field(key: Key, value: Value, rest: Fields)

  datatype Json = JAtom(atom: Atom) | JList(items: seq<Json>) | JObject(members: Members)

  datatype Members = NoMembers | Member(name: string, value: Json, rest: Members)

  /** Base64 as the standard library provides it. */
  datatype Base64 = Base64(encode: seq<byte> -> string, decode: string -> Option<seq<byte>>)

  ghost predicate Lawful(b64: Base64) {
    forall raw :: b64.decode(b64.encode(raw)) == Some(raw)
  }

  // ---- element types ---------------------------------------------------------

  predicate DtypeOk(d: Dtype) {
    d.kind in {'b', 'i', 'u', 'f'} && d.size in {1, 2, 4, 8}
  }

  function Digit(n: nat): char
    requires n in {1, 2, 4, 8}
  {
    if n == 1 then '1' else if n == 2 then '2' else if n == 4 then '4' else '8'
  }

  function DtypeName(d: Dtype): string
    requires DtypeOk(d)
  {
    [d.order, d.kind, Digit(d.size)]
  }

  function ParseDtype(s: string): Option<Dtype> {
    if |s| != 3 || s[1] !in {'b', 'i', 'u', 'f'} then None
    else if s[2] == '1' then Some(Dtype(s[0], s[1], 1))
    else if s[2] == '2' then Some(Dtype(s[0], s[1], 2))
    else if s[2] == '4' then Some(Dtype(s[0], s[1], 4))
    else if s[2] == '8' then Some(Dtype(s[0], s[1], 8))
    else None
  }

  function Product(shape: seq<nat>): nat {
    if shape == [] then 1 else shape[0] * Product(shape[1..])
  }

  // ---- encoding --------------------------------------------------------------

  predicate Sendable(dtype: Dtype, shape: seq<nat>, raw: seq<byte>) {
    DtypeOk(dtype) && |shape| <= 8 && |raw| <= MAX_BYTES
  }

  function Sizes(shape: seq<nat>): seq<Json> {
    seq(|shape|, i requires 0 <= i < |shape| => JAtom(Int(shape[i])))
  }

  function Marked(b64: Base64, dtype: Dtype, shape: seq<nat>, raw: seq<byte>): Members
    requires DtypeOk(dtype)
  {
    Member(ARRAY, JAtom(Text(b64.encode(raw))),
      Member("shape", JList(Sizes(shape)), Member("dtype", JAtom(Text(DtypeName(dtype))), NoMembers)))
  }

  function Encode(b64: Base64, v: Value): Option<Json> {
    match v
    case Array(dtype, shape, raw) =>
      if Sendable(dtype, shape, raw) then Some(JObject(Marked(b64, dtype, shape, raw))) else None
    case Object(fields) =>
      if !KeysOk(fields) then None
      else (match EncodeFields(b64, fields) case None => None case Some(members) => Some(JObject(members)))
    case List(items) => (match EncodeItems(b64, items) case None => None case Some(js) => Some(JList(js)))
    case Tuple(items) => (match EncodeItems(b64, items) case None => None case Some(js) => Some(JList(js)))
    case Scalar(atom) => Some(JAtom(atom))
    case Plain(atom) => Some(JAtom(atom))
    case Opaque => None
  }

  /** Every key is a string, and none is the array mark. */
  predicate KeysOk(fields: Fields) {
    match fields
    case NoFields => true
    case Field(key, _, rest) => key.Name? && key.s != ARRAY && KeysOk(rest)
  }

  function EncodeItems(b64: Base64, items: seq<Value>): Option<seq<Json>> {
    if items == [] then Some([])
    else match (Encode(b64, items[0]), EncodeItems(b64, items[1..]))
      case (Some(j), Some(js)) => Some([j] + js)
      case _ => None
  }

  function EncodeFields(b64: Base64, fields: Fields): Option<Members>
    requires KeysOk(fields)
  {
    match fields
    case NoFields => Some(NoMembers)
    case Field(key, value, rest) =>
      match (Encode(b64, value), EncodeFields(b64, rest))
      case (Some(j), Some(members)) => Some(Member(key.s, j, members))
      case _ => None
  }

  // ---- decoding --------------------------------------------------------------

  /** The last member of this name: what a parsed object maps it to. */
  function Find(members: Members, name: string): Option<Json> {
    match members
    case NoMembers => None
    case Member(n, value, rest) =>
      match Find(rest, name)
      case Some(j) => Some(j)
      case None => if n == name then Some(value) else None
  }

  /** A shape: at most eight whole numbers, none negative. */
  function DecodeShape(j: Option<Json>): Option<seq<nat>> {
    match j
    case Some(JList(items)) =>
      if |items| <= 8 && forall i :: 0 <= i < |items| ==> items[i].JAtom? && items[i].atom.Int? && items[i].atom.i >= 0
      then Some(seq(|items|, i requires 0 <= i < |items| => items[i].atom.i as nat))
      else None
    case _ => None
  }

  function DecodeArray(b64: Base64, members: Members): Option<Value> {
    match (Find(members, "dtype"), DecodeShape(Find(members, "shape")), Find(members, ARRAY))
    case (Some(JAtom(Text(name))), Some(shape), Some(JAtom(Text(data)))) =>
      (match ParseDtype(name)
       case None => None
       case Some(dtype) =>
         if Product(shape) * dtype.size > MAX_BYTES then None
         else match b64.decode(data)
           case None => None
           case Some(raw) => if |raw| != Product(shape) * dtype.size then None else Some(Array(dtype, shape, raw)))
    case _ => None
  }

  function Decode(b64: Base64, j: Json): Option<Value> {
    match j
    case JObject(members) =>
      if Find(members, ARRAY).Some? then DecodeArray(b64, members)
      else (match DecodeMembers(b64, members) case None => None case Some(fields) => Some(Object(fields)))
    case JList(items) => (match DecodeItems(b64, items) case None => None case Some(vs) => Some(List(vs)))
    case JAtom(atom) => Some(Plain(atom))
  }

  function DecodeItems(b64: Base64, items: seq<Json>): Option<seq<Value>> {
    if items == [] then Some([])
    else match (Decode(b64, items[0]), DecodeItems(b64, items[1..]))
      case (Some(v), Some(vs)) => Some([v] + vs)
      case _ => None
  }

  /** Of members with the same name a parsed object keeps the last, whatever the others hold. */
  function DecodeMembers(b64: Base64, members: Members): Option<Fields> {
    match members
    case NoMembers => Some(NoFields)
    case Member(name, j, rest) =>
      if Find(rest, name).Some? then DecodeMembers(b64, rest)
      else match (Decode(b64, j), DecodeMembers(b64, rest))
      case (Some(v), Some(fields)) => Some(Field(Name(name), v, fields))
      case _ => None
  }

  // ---- what comes back -------------------------------------------------------

  /** A value as its receiver sees it: tuples are lists, array scalars are plain. */
  function Received(v: Value): Value {
    match v
    case List(items) => List(ReceivedItems(items))
    case Tuple(items) => List(ReceivedItems(items))
    case Object(fields) => Object(ReceivedFields(fields))
    case Scalar(atom) => Plain(atom)
    case _ => v
  }

  function ReceivedItems(items: seq<Value>): seq<Value> {
    if items == [] then [] else [Received(items[0])] + ReceivedItems(items[1..])
  }

  function ReceivedFields(fields: Fields): Fields {
    match fields
    case NoFields => NoFields
    case Field(key, value, rest) => Field(key, Received(value), ReceivedFields(rest))
  }

  /** The entry of this name. */
  function Entry(fields: Fields, name: string): Option<Value> {
    match fields
    case NoFields => None
    case Field(key, value, rest) => if key == Name(name) then Some(value) else Entry(rest, name)
  }

  predicate HasKey(fields: Fields, name: string) { Entry(fields, name).Some? }

  /** Every array in a value has as many bytes as its shape and type say, and no object has
      two entries of one name. */
  predicate WellFormed(v: Value) {
    match v
    case List(items) => WellFormedItems(items)
    case Tuple(items) => WellFormedItems(items)
    case Object(fields) => WellFormedFields(fields)
    case Array(dtype, shape, raw) => |raw| == Product(shape) * dtype.size
    case _ => true
  }

  predicate WellFormedItems(items: seq<Value>) {
    items == [] || (WellFormed(items[0]) && WellFormedItems(items[1..]))
  }

  predicate WellFormedFields(fields: Fields) {
    match fields
    case NoFields => true
    case Field(key, value, rest) =>
      WellFormed(value) && WellFormedFields(rest) && (key.Name? ==> !HasKey(rest, key.s))
  }

  /** An element type survives its name. */
  lemma DtypeRoundTrip(d: Dtype)
    requires DtypeOk(d)
    ensures ParseDtype(DtypeName(d)) == Some(d)
  {
  }

  lemma ArrayRoundTrip(b64: Base64, dtype: Dtype, shape: seq<nat>, raw: seq<byte>)
    requires Lawful(b64) && Sendable(dtype, shape, raw) && |raw| == Product(shape) * dtype.size
    ensures Decode(b64, JObject(Marked(b64, dtype, shape, raw))) == Some(Array(dtype, shape, raw))
  {
    var members := Marked(b64, dtype, shape, raw);
    DtypeRoundTrip(dtype);
    FindThird(members.name, members.value, members.rest.name, members.rest.value, members.rest.rest.name,
              members.rest.rest.value);
    var back := DecodeShape(Some(JList(Sizes(shape))));
    assert back.Some? && back.value == shape;
  }

  lemma FindThird(a: string, x: Json, b: string, y: Json, c: string, z: Json)
    requires a != b && b != c && a != c
    ensures var members := Member(a, x, Member(b, y, Member(c, z, NoMembers)));
      Find(members, a) == Some(x) && Find(members, b) == Some(y) && Find(members, c) == Some(z)
  {
    var last := Member(c, z, NoMembers);
    assert Find(last, a) == None && Find(last, b) == None && Find(last, c) == Some(z);
    var two := Member(b, y, last);
    assert Find(two, a) == None && Find(two, b) == Some(y) && Find(two, c) == Some(z);
  }

  /** An encoded object has the names of the object. */
  lemma {:induction false} EncodedNames(b64: Base64, fields: Fields, name: string)
    requires KeysOk(fields) && EncodeFields(b64, fields).Some?
    ensures Find(EncodeFields(b64, fields).value, name).Some? <==> HasKey(fields, name)
  {
    if fields.Field? {
      EncodedNames(b64, fields.rest, name);
    }
  }

  /** An object that can be encoded is never taken for an array. */
  lemma {:induction false} NotAnArray(b64: Base64, fields: Fields)
    requires KeysOk(fields) && EncodeFields(b64, fields).Some?
    ensures Find(EncodeFields(b64, fields).value, ARRAY).None?
  {
    if fields.Field? {
      NotAnArray(b64, fields.rest);
    }
  }

  /** What is sent is received, up to tuples and scalars; in particular an object comes back
      as an object, whatever its keys. */
  lemma {:induction false} RoundTrip(b64: Base64, v: Value)
    requires Lawful(b64) && WellFormed(v)
    ensures Encode(b64, v).Some? ==> Decode(b64, Encode(b64, v).value) == Some(Received(v))
    decreases v
  {
    match v
    case Array(dtype, shape, raw) =>
      if Sendable(dtype, shape, raw) {
        ArrayRoundTrip(b64, dtype, shape, raw);
      }
    case Object(fields) =>
      if KeysOk(fields) {
        FieldsRoundTrip(b64, fields);
        if EncodeFields(b64, fields).Some? {
          NotAnArray(b64, fields);
        }
      }
    case List(items) => ItemsRoundTrip(b64, items);
    case Tuple(items) => ItemsRoundTrip(b64, items);
    case _ =>
  }

  lemma {:induction false} ItemsRoundTrip(b64: Base64, items: seq<Value>)
    requires Lawful(b64) && WellFormedItems(items)
    ensures var r := EncodeItems(b64, items); r.Some? ==> DecodeItems(b64, r.value) == Some(ReceivedItems(items))
    decreases items
  {
    if items != [] {
      RoundTrip(b64, items[0]);
      ItemsRoundTrip(b64, items[1..]);
      var r := EncodeItems(b64, items);
      if r.Some? {
        assert r.value[1..] == EncodeItems(b64, items[1..]).value;
      }
    }
  }

  lemma {:induction false} FieldsRoundTrip(b64: Base64, fields: Fields)
    requires Lawful(b64) && KeysOk(fields) && WellFormedFields(fields)
    ensures var r := EncodeFields(b64, fields); r.Some? ==> DecodeMembers(b64, r.value) == Some(ReceivedFields(fields))
    decreases fields
  {
    match fields
    case NoFields =>
    case Field(key, value, rest) =>
      RoundTrip(b64, value);
      FieldsRoundTrip(b64, rest);
      if EncodeFields(b64, rest).Some? {
        EncodedNames(b64, rest, key.s);
      }
  }

  // ---- what the receiver has -------------------------------------------------

  /** Whatever decodes is well formed and can be sent on unchanged. */
  lemma {:induction false} DecodedCanBeSent(b64: Base64, j: Json)
    ensures var v := Decode(b64, j); v.Some? ==>
      WellFormed(v.value) && Encode(b64, v.value).Some? && Received(v.value) == v.value
    decreases j
  {
    match j
    case JAtom(_) =>
    case JList(items) => DecodedItems(b64, items);
    case JObject(members) =>
      if Find(members, ARRAY).Some? {
        DecodedArray(b64, members);
      } else {
        DecodedMembers(b64, members);
      }
  }

  lemma DecodedArray(b64: Base64, members: Members)
    ensures var v := DecodeArray(b64, members); v.Some? ==>
      v.value.Array? && WellFormed(v.value) && Sendable(v.value.dtype, v.value.shape, v.value.raw)
  {
  }

  lemma {:induction false} DecodedItems(b64: Base64, items: seq<Json>)
    ensures var vs := DecodeItems(b64, items); vs.Some? ==>
      WellFormedItems(vs.value) && EncodeItems(b64, vs.value).Some? && ReceivedItems(vs.value) == vs.value
    decreases items
  {
    if items != [] {
      DecodedCanBeSent(b64, items[0]);
      DecodedItems(b64, items[1..]);
      var vs := DecodeItems(b64, items);
      if vs.Some? {
        assert vs.value[1..] == DecodeItems(b64, items[1..]).value;
      }
    }
  }

  /** A decoded object has the names of the members, each with the last value given to it. */
  lemma {:induction false} LastWins(b64: Base64, members: Members, name: string)
    ensures var fields := DecodeMembers(b64, members); fields.Some? ==>
      Entry(fields.value, name) ==
        match Find(members, name) case None => None case Some(j) => Decode(b64, j)
  {
    if members.Member? {
      LastWins(b64, members.rest, name);
    }
  }

  lemma {:induction false} DecodedMembers(b64: Base64, members: Members)
    requires Find(members, ARRAY).None?
    ensures var fields := DecodeMembers(b64, members); fields.Some? ==>
      && KeysOk(fields.value) && WellFormedFields(fields.value) && EncodeFields(b64, fields.value).Some?
      && ReceivedFields(fields.value) == fields.value
    decreases members
  {
    match members
    case NoMembers =>
    case Member(name, j, rest) =>
      DecodedCanBeSent(b64, j);
      DecodedMembers(b64, rest);
      LastWins(b64, rest, name);
  }

  // ---- which values and which messages ---------------------------------------

  /** JSON or the array form can express the value: nothing opaque is in it, its arrays have a
      type and a size that the wire takes, and its objects are keyed by strings other than the
      mark. */
  predicate Expressible(v: Value) {
    match v
    case Plain(_) => true
    case Scalar(_) => true
    case List(items) => forall i :: 0 <= i < |items| ==> Expressible(items[i])
    case Tuple(items) => forall i :: 0 <= i < |items| ==> Expressible(items[i])
    case Object(fields) => ExpressibleFields(fields)
    case Array(dtype, shape, raw) =>
      dtype.kind in {'b', 'i', 'u', 'f'} && dtype.size in {1, 2, 4, 8} && |shape| <= 8 && |raw| <= MAX_BYTES
    case Opaque => false
  }

  predicate ExpressibleFields(fields: Fields) {
    fields.Field? ==>
      && fields.key != OtherKey && fields.key != Name(ARRAY)
      && Expressible(fields.value) && ExpressibleFields(fields.rest)
  }

  /** A value is encoded exactly if it can be expressed. */
  lemma {:induction false} EncodesExactly(b64: Base64, v: Value)
    ensures Encode(b64, v).Some? <==> Expressible(v)
    decreases v
  {
    match v
    case List(items) => EncodesItems(b64, items);
    case Tuple(items) => EncodesItems(b64, items);
    case Object(fields) => EncodesFields(b64, fields);
    case _ =>
  }

  lemma {:induction false} EncodesItems(b64: Base64, items: seq<Value>)
    ensures EncodeItems(b64, items).Some? <==> forall i :: 0 <= i < |items| ==> Expressible(items[i])
    decreases items
  {
    if items != [] {
      EncodesExactly(b64, items[0]);
      EncodesItems(b64, items[1..]);
      assert forall i :: 0 < i < |items| ==> items[i] == items[1..][i - 1];
    }
  }

  lemma {:induction false} EncodesFields(b64: Base64, fields: Fields)
    ensures KeysOk(fields) && EncodeFields(b64, fields).Some? <==> ExpressibleFields(fields)
    decreases fields
  {
    if fields.Field? {
      EncodesExactly(b64, fields.value);
      EncodesFields(b64, fields.rest);
    }
  }

  /** The members spell out this array: its type by name, its sizes, and as many bytes as
      these ask for. */
  ghost predicate Spells(b64: Base64, members: Members, dtype: Dtype, shape: seq<nat>, raw: seq<byte>) {
    && DtypeOk(dtype) && |shape| <= 8 && |raw| == Product(shape) * dtype.size <= MAX_BYTES
    && Find(members, "dtype") == Some(JAtom(Text(DtypeName(dtype))))
    && Find(members, "shape") == Some(JList(Sizes(shape)))
    && exists text :: Find(members, ARRAY) == Some(JAtom(Text(text))) && b64.decode(text) == Some(raw)
  }

  /** A message that can be read: marked objects spell out an array, and what other objects
      say last under each name can be read. */
  ghost predicate Readable(b64: Base64, j: Json) {
    match j
    case JAtom(_) => true
    case JList(items) => forall i :: 0 <= i < |items| ==> Readable(b64, items[i])
    case JObject(members) =>
      if Find(members, ARRAY).Some? then exists dtype, shape, raw :: Spells(b64, members, dtype, shape, raw)
      else ReadableMembers(b64, members)
  }

  ghost predicate ReadableMembers(b64: Base64, members: Members) {
    members.Member? ==>
      (Find(members.rest, members.name).None? ==> Readable(b64, members.value)) && ReadableMembers(b64, members.rest)
  }

  /** A message is decoded exactly if it can be read, and a marked object to what it spells. */
  lemma {:induction false} DecodesExactly(b64: Base64, j: Json)
    ensures Decode(b64, j).Some? <==> Readable(b64, j)
    decreases j
  {
    match j
    case JAtom(_) =>
    case JList(items) => DecodesItems(b64, items);
    case JObject(members) =>
      if Find(members, ARRAY).Some? {
        DecodesArray(b64, members);
      } else {
        DecodesMembers(b64, members);
      }
  }

  lemma {:induction false} DecodesItems(b64: Base64, items: seq<Json>)
    ensures DecodeItems(b64, items).Some? <==> forall i :: 0 <= i < |items| ==> Readable(b64, items[i])
    decreases items
  {
    if items != [] {
      DecodesExactly(b64, items[0]);
      DecodesItems(b64, items[1..]);
      assert forall i :: 0 < i < |items| ==> items[i] == items[1..][i - 1];
    }
  }

  lemma {:induction false} DecodesMembers(b64: Base64, members: Members)
    ensures DecodeMembers(b64, members).Some? <==> ReadableMembers(b64, members)
    decreases members
  {
    if members.Member? {
      DecodesExactly(b64, members.value);
      DecodesMembers(b64, members.rest);
    }
  }

  /** An array is what its members spell, and there is one exactly if they spell one. */
  lemma DecodesArray(b64: Base64, members: Members)
    ensures var v := DecodeArray(b64, members);
      && (v.Some? <==> exists dtype, shape, raw :: Spells(b64, members, dtype, shape, raw))
      && (v.Some? ==> v.value.Array? && Spells(b64, members, v.value.dtype, v.value.shape, v.value.raw))
  {
    var v := DecodeArray(b64, members);
    if v.Some? {
      DecodedSpells(b64, members);
    }
    if dtype, shape, raw :| Spells(b64, members, dtype, shape, raw) {
      SpelledDecodes(b64, members, dtype, shape, raw);
    }
  }

  lemma DecodedSpells(b64: Base64, members: Members)
    requires DecodeArray(b64, members).Some?
    ensures var v := DecodeArray(b64, members).value;
      v.Array? && Spells(b64, members, v.dtype, v.shape, v.raw)
  {
    var v := DecodeArray(b64, members).value;
    var name := Find(members, "dtype").value.atom.s;
    assert DtypeName(v.dtype) == name;
    assert Sizes(v.shape) == Find(members, "shape").value.items;
  }

  lemma SpelledDecodes(b64: Base64, members: Members, dtype: Dtype, shape: seq<nat>, raw: seq<byte>)
    requires Spells(b64, members, dtype, shape, raw)
    ensures DecodeArray(b64, members) == Some(Array(dtype, shape, raw))
  {
    DtypeRoundTrip(dtype);
    var back := DecodeShape(Some(JList(Sizes(shape))));
    assert back.Some? && back.value == shape;
  }
}
