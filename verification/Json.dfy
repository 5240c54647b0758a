/** Untyped JSON values as Python holds them, and the shapes that validators demand of them. */
module Json {
  import opened Sorting

  type Denominator = n: nat | n > 0 witness 1

  /** An object keeps its keys in insertion order; a Boolean is an integer to Python's `==`. A float is a fraction or
      an infinity: the parser refuses the constants for infinity and NaN, but a literal such as `1e999` overflows to
      one. */
  datatype Json =
    | Null
    | Bool(b: bool)
    | Int(i: int)
    | Float(numerator: int, denominator: Denominator)
    | Infinite(positive: bool)
    | Str(s: string)
    | Arr(items: seq<Json>)
    | Obj(fields: map<string, Json>, order: seq<string>)

  /** What a parser that rejects duplicate keys can return. */
  ghost predicate WellFormed(j: Json) {
    match j
    case Obj(fields, order) =>
      && NoDuplicates(order) && (forall k :: k in order <==> k in fields)
      && forall k :: k in fields ==> WellFormed(fields[k])
    case Arr(items) => forall n :: 0 <= n < |items| ==> WellFormed(items[n])
    case _ => true
  }

  /** What can be printed: printing refuses infinities. */
  predicate Finite(j: Json) {
    match j
    case Infinite(_) => false
    case Obj(fields, _) => forall k :: k in fields ==> Finite(fields[k])
    case Arr(items) => forall n :: 0 <= n < |items| ==> Finite(items[n])
    case _ => true
  }

  predicate Has(j: Json, key: string) {
    j.Obj? && key in j.fields
  }

  function Get(j: Json, key: string): Json
    requires Has(j, key)
  {
    j.fields[key]
  }

  // -- Equality ------------------------------------------------------------------------------

  /** A finite number. */
  predicate IsNumber(j: Json) {
    j.Bool? || j.Int? || j.Float?
  }

  function Number(j: Json): real
    requires IsNumber(j)
  {
    match j
    case Bool(b) => if b then 1.0 else 0.0
    case Int(i) => i as real
    case Float(n, d) => n as real / d as real
  }

  /** Python's `==`. */
  predicate PyEq(a: Json, b: Json)
    decreases a
  {
    if IsNumber(a) then IsNumber(b) && Number(a) == Number(b)
    else match a
      case Null => b.Null?
      case Infinite(positive) => b == Infinite(positive)
      case Str(s) => b.Str? && b.s == s
      case Arr(items) =>
        b.Arr? && |b.items| == |items| && forall n :: 0 <= n < |items| ==> PyEq(items[n], b.items[n])
      case Obj(fields, _) =>
        b.Obj? && b.fields.Keys == fields.Keys && forall k :: k in fields ==> PyEq(fields[k], b.fields[k])
  }

  lemma {:induction false} EqualsFinite(a: Json, b: Json)
    requires PyEq(a, b) && Finite(b)
    ensures Finite(a)
    decreases a
  {
    match a
    case Obj(fields, _) =>
      forall k | k in fields ensures Finite(fields[k]) { EqualsFinite(fields[k], b.fields[k]); }
    case Arr(items) =>
      forall n | 0 <= n < |items| ensures Finite(items[n]) { EqualsFinite(items[n], b.items[n]); }
    case _ =>
  }

  // -- Key order -----------------------------------------------------------------------------

  /** The value that is read back after writing with sorted keys. */
  function Canonical(j: Json): Json {
    match j
    case Obj(fields, order) => Obj(map k | k in fields :: Canonical(fields[k]), Sorted(order))
    case Arr(items) => Arr(seq(|items|, n requires 0 <= n < |items| => Canonical(items[n])))
    case _ => j
  }

  /** The same value up to key order, except under the ignored keys. */
  predicate Agree(a: Json, b: Json, ignored: set<string>)
    decreases a
  {
    match a
    case Obj(fields, _) =>
      && b.Obj? && fields.Keys == b.fields.Keys
      && forall k :: k in fields && k !in ignored ==> Agree(fields[k], b.fields[k], ignored)
    case Arr(items) =>
      b.Arr? && |b.items| == |items| && forall n :: 0 <= n < |items| ==> Agree(items[n], b.items[n], ignored)
    case _ => b == a
  }

  lemma {:induction false} AgreeSymmetric(a: Json, b: Json, ignored: set<string>)
    requires Agree(a, b, ignored)
    ensures Agree(b, a, ignored)
    decreases a
  {
    match a
    case Obj(fields, _) =>
      forall k | k in fields && k !in ignored ensures Agree(b.fields[k], fields[k], ignored) {
        AgreeSymmetric(fields[k], b.fields[k], ignored);
      }
    case Arr(items) =>
      forall n | 0 <= n < |items| ensures Agree(b.items[n], items[n], ignored) {
        AgreeSymmetric(items[n], b.items[n], ignored);
      }
    case _ =>
  }

  lemma {:induction false} CanonicalAgrees(j: Json)
    ensures Agree(j, Canonical(j), {})
  {
    match j
    case Obj(fields, order) =>
      forall k | k in fields ensures Agree(fields[k], Canonical(fields[k]), {}) { CanonicalAgrees(fields[k]); }
    case Arr(items) =>
      forall n | 0 <= n < |items| ensures Agree(items[n], Canonical(items[n]), {}) { CanonicalAgrees(items[n]); }
    case _ =>
  }

  lemma {:induction false} CanonicalWellFormed(j: Json)
    requires WellFormed(j)
    ensures WellFormed(Canonical(j))
  {
    match j
    case Obj(fields, order) =>
      SortedKeeps(order);
      forall k | k in fields ensures WellFormed(Canonical(fields[k])) { CanonicalWellFormed(fields[k]); }
    case Arr(items) =>
      forall n | 0 <= n < |items| ensures WellFormed(Canonical(items[n])) { CanonicalWellFormed(items[n]); }
    case _ =>
  }

  lemma {:induction false} EqualityIgnoresOrder(a: Json, b: Json, c: Json)
    requires Agree(a, b, {})
    ensures PyEq(a, c) <==> PyEq(b, c)
    decreases a
  {
    match a
    case Obj(fields, _) =>
      if c.Obj? && c.fields.Keys == fields.Keys {
        forall k | k in fields
          ensures PyEq(fields[k], c.fields[k]) <==> PyEq(b.fields[k], c.fields[k])
        {
          EqualityIgnoresOrder(fields[k], b.fields[k], c.fields[k]);
        }
      }
    case Arr(items) =>
      if c.Arr? && |c.items| == |items| {
        forall n | 0 <= n < |items|
          ensures PyEq(items[n], c.items[n]) <==> PyEq(b.items[n], c.items[n])
        {
          EqualityIgnoresOrder(items[n], b.items[n], c.items[n]);
        }
      }
    case _ =>
  }

  // -- Shapes --------------------------------------------------------------------------------

  datatype Field = Field(name: string, shape: Shape)

  /** `Exact` asks for an object with exactly these keys; `SameCount` also for two equal counts. */
  datatype Shape =
    | Anything
    | NonNegative
    | Positive
    | Boolean
    | False
    | Digest
    | Revision
    | OneOf(values: seq<Json>)
    | Exact(fields: seq<Field>)
    | SameCount(inner: Shape, left: string, right: string)

  predicate LowerHex(s: string, length: nat) {
    |s| == length && forall n :: 0 <= n < |s| ==> '0' <= s[n] <= '9' || 'a' <= s[n] <= 'f'
  }

  function FieldNames(fields: seq<Field>): set<string> {
    set n | 0 <= n < |fields| :: fields[n].name
  }

  predicate Conforms(j: Json, shape: Shape)
    decreases shape
  {
    match shape
    case Anything => true
    case NonNegative => j.Int? && j.i >= 0
    case Positive => j.Int? && j.i > 0
    case Boolean => j.Bool?
    case False => j == Bool(false)
    case Digest => j.Str? && LowerHex(j.s, 64)
    case Revision => j.Str? && (j.s == "UNCOMMITTED" || LowerHex(j.s, 40))
    case OneOf(values) => exists n :: 0 <= n < |values| && PyEq(j, values[n])
    case Exact(fields) =>
      && j.Obj? && j.fields.Keys == FieldNames(fields)
      && forall n :: 0 <= n < |fields| ==> Has(j, fields[n].name) && Conforms(j.fields[fields[n].name], fields[n].shape)
    case SameCount(inner, left, right) =>
      && Conforms(j, inner)
      && Has(j, left) && Has(j, right) && Get(j, left).Int? && Get(j, left) == Get(j, right)
  }

  lemma {:induction false} ShapeIgnoresOrder(a: Json, b: Json, shape: Shape)
    requires Agree(a, b, {})
    ensures Conforms(a, shape) <==> Conforms(b, shape)
    decreases shape
  {
    match shape
    case OneOf(values) =>
      forall n | 0 <= n < |values|
        ensures PyEq(a, values[n]) <==> PyEq(b, values[n])
      {
        EqualityIgnoresOrder(a, b, values[n]);
      }
    case Exact(fields) =>
      if a.Obj? && a.fields.Keys == FieldNames(fields) {
        forall n | 0 <= n < |fields|
          ensures fields[n].name in a.fields
          ensures Conforms(a.fields[fields[n].name], fields[n].shape)
             <==> Conforms(b.fields[fields[n].name], fields[n].shape)
        {
          assert fields[n].name in FieldNames(fields);
          ShapeIgnoresOrder(a.fields[fields[n].name], b.fields[fields[n].name], fields[n].shape);
        }
      }
    case SameCount(inner, left, right) =>
      ShapeIgnoresOrder(a, b, inner);
    case _ =>
  }

  /** A shape that leaves nothing open and admits finite values only. */
  predicate Closed(shape: Shape)
    decreases shape
  {
    match shape
    case Anything => false
    case OneOf(values) => forall n :: 0 <= n < |values| ==> Finite(values[n])
    case Exact(fields) => forall n :: 0 <= n < |fields| ==> Closed(fields[n].shape)
    case SameCount(inner, _, _) => Closed(inner)
    case _ => true
  }

  lemma {:induction false} ClosedMeansFinite(j: Json, shape: Shape)
    requires Conforms(j, shape) && Closed(shape)
    ensures Finite(j)
    decreases shape
  {
    match shape
    case OneOf(values) =>
      var n :| 0 <= n < |values| && PyEq(j, values[n]);
      EqualsFinite(j, values[n]);
    case Exact(fields) =>
      forall k | k in j.fields
        ensures Finite(j.fields[k])
      {
        assert k in FieldNames(fields);
        var n :| 0 <= n < |fields| && fields[n].name == k;
        ClosedMeansFinite(j.fields[fields[n].name], fields[n].shape);
      }
    case SameCount(inner, _, _) =>
      ClosedMeansFinite(j, inner);
    case _ =>
  }
}
