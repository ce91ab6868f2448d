/** JSON values as Python holds them. Strings are words of a vocabulary W, so that a controller can
    name the strings it spells out. A digest is the text of a SHA-256 over canonical bytes; as a
    constructor it is injective and differs from every other string. */
module PyJson {
  import Characters

  datatype Value<W(==)> =
    | Null
    | Bool(b: bool)
    | Int(i: int)
    | Float(r: real)
    | Str(s: W)
    | Digest(of: Value<W>)
    | TextDigest(text: string)
    | List(items: seq<Value<W>>)
    | Dict(fields: map<W, Value<W>>)
  {
    /** `isinstance(value, str)`. */
    predicate IsText() {
      Str? || Digest? || TextDigest?
    }

    /** `value.get(key)`; a missing key reads as null. */
    function Get(key: W): Value<W>
      requires Dict?
    {
      if key in fields then fields[key] else Null
    }

    function GetOr(key: W, otherwise: Value<W>): Value<W>
      requires Dict?
    {
      if key in fields then fields[key] else otherwise
    }

    predicate HasKeys(keys: set<W>) {
      Dict? && fields.Keys == keys
    }
  }

  /** An integer that prints as 64 digits. */
  predicate Has64Digits(i: int) {
    1_000_000_000_000_000_000_000_000_000_000_000_000_000_000_000_000_000_000_000_000_000_000 <= i
    < 10_000_000_000_000_000_000_000_000_000_000_000_000_000_000_000_000_000_000_000_000_000_000
  }

  /** `HEX_64.fullmatch(str(value))`, `text` being the text of a string that is not spelled out: a digest, a
      spelled-out one, or an integer of 64 digits. */
  predicate PrintsHex64<W>(v: Value<W>, text: string) {
    match v
    case Digest(_) => true
    case TextDigest(_) => true
    case Str(_) => Characters.IsHexText(text, 64)
    case Int(i) => Has64Digits(i)
    case _ => false
  }

  /** An object of a URN and whether it is present. */
  predicate PresenceItem<W>(v: Value<W>, urnKey: W, presentKey: W, urn: W) {
    v.HasKeys({urnKey, presentKey}) && v.fields[urnKey] == Str(urn) && v.fields[presentKey].Bool?
  }

  /** The presence of two URNs, in order. */
  predicate PresencePair<W>(v: Value<W>, urnKey: W, presentKey: W, first: W, second: W) {
    && v.List? && |v.items| == 2
    && PresenceItem(v.items[0], urnKey, presentKey, first) && PresenceItem(v.items[1], urnKey, presentKey, second)
  }

  predicate IsNumber<W>(v: Value<W>) {
    v.Bool? || v.Int? || v.Float?
  }

  function Number<W>(v: Value<W>): real
    requires IsNumber(v)
  {
    match v
    case Bool(b) => if b then 1.0 else 0.0
    case Int(i) => i as real
    case Float(r) => r
  }

  /** Python's `==`: numbers of all three kinds compare by value, so `True == 1 == 1.0`. */
  predicate PyEq<W(==)>(a: Value<W>, b: Value<W>)
    decreases a
  {
    if IsNumber(a) && IsNumber(b) then Number(a) == Number(b)
    else if a.List? && b.List? then
      |a.items| == |b.items| && forall i | 0 <= i < |a.items| :: PyEq(a.items[i], b.items[i])
    else if a.Dict? && b.Dict? then
      a.fields.Keys == b.fields.Keys && forall k | k in a.fields.Keys :: PyEq(a.fields[k], b.fields[k])
    else a == b
  }

  lemma {:induction false} PyEqReflexive<W>(a: Value<W>)
    ensures PyEq(a, a)
    decreases a
  {
    match a
    case List(items) =>
      forall i | 0 <= i < |items| {
        PyEqReflexive(items[i]);
      }
    case Dict(fields) =>
      forall k | k in fields {
        PyEqReflexive(fields[k]);
      }
    case _ =>
  }

  /** Values that are equal as Python compares are equal to the same values. */
  lemma {:induction false} PyEqCongruent<W>(a: Value<W>, b: Value<W>, c: Value<W>)
    requires PyEq(b, c)
    ensures PyEq(a, b) <==> PyEq(a, c)
    decreases a
  {
    if a.List? && b.List? && c.List? && |a.items| == |b.items| {
      forall i | 0 <= i < |a.items|
        ensures PyEq(a.items[i], b.items[i]) <==> PyEq(a.items[i], c.items[i])
      {
        PyEqCongruent(a.items[i], b.items[i], c.items[i]);
      }
    } else if a.Dict? && b.Dict? && c.Dict? && a.fields.Keys == b.fields.Keys {
      forall k | k in a.fields.Keys
        ensures PyEq(a.fields[k], b.fields[k]) <==> PyEq(a.fields[k], c.fields[k])
      {
        PyEqCongruent(a.fields[k], b.fields[k], c.fields[k]);
      }
    }
  }

  /** No boolean and no number anywhere. */
  predicate Numberless<W(==)>(a: Value<W>)
    decreases a
  {
    match a
    case Int(_) => false
    case Float(_) => false
    case Bool(_) => false
    case List(items) => forall i | 0 <= i < |items| :: Numberless(items[i])
    case Dict(fields) => forall k | k in fields.Keys :: Numberless(fields[k])
    case _ => true
  }

  /** Against a value without numbers, Python's `==` is structural. */
  lemma {:induction false} NumberlessIsStructural<W>(a: Value<W>, b: Value<W>)
    requires Numberless(b)
    ensures PyEq(a, b) <==> a == b
    decreases a
  {
    if a.List? && b.List? && PyEq(a, b) {
      forall i | 0 <= i < |a.items|
        ensures a.items[i] == b.items[i]
      {
        NumberlessIsStructural(a.items[i], b.items[i]);
      }
    } else if a.Dict? && b.Dict? && PyEq(a, b) {
      forall k | k in a.fields.Keys
        ensures a.fields[k] == b.fields[k]
      {
        NumberlessIsStructural(a.fields[k], b.fields[k]);
      }
      assert a.fields == b.fields;
    }
    if a == b {
      PyEqReflexive(a);
    }
  }
}
