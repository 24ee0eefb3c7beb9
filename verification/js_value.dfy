/** JSON request bodies as JavaScript sees them: values, truthiness, property
    lookup, the `||` default, and object spread. Only what the API routes use is
    modelled. None of the property names the routes read is defined on a prototype
    (no `name`, `type`, `data` on strings, arrays or numbers), so a lookup on
    anything but an object finds nothing. Numbers are reals: NaN does not arise
    from parsed JSON. */
module Js {
  import opened Numerals

  datatype Value =
    | Undefined
    | Null
    | Bool(b: bool)
    | Num(n: real)
    | Str(s: string)
    | Arr(items: seq<Value>)
    | Obj(props: map<string, Value>)

  /** JavaScript truthiness: false, 0, "" and the two empty values are falsy;
      every array and object is truthy, even an empty one. */
  predicate Truthy(v: Value)
  {
    match v
    case Undefined => false
    case Null => false
    case Bool(b) => b
    case Num(n) => n != 0.0
    case Str(s) => s != ""
    case Arr(_) => true
    case Obj(_) => true
  }

  /** `v.key` on a value that has properties. */
  function Get(v: Value, key: string): Value
  {
    if v.Obj? && key in v.props then v.props[key] else Undefined
  }

  /** `v || fallback`. */
  function Or(v: Value, fallback: Value): Value
  {
    if Truthy(v) then v else fallback
  }

  /** Destructuring `const { … } = v` throws on exactly these two values. */
  predicate Destructurable(v: Value)
  {
    !v.Undefined? && !v.Null?
  }

  /** Whether the template literal `${v}` turns `v` into a string without
      throwing. A JSON object with its own `toString` key hides the inherited
      method behind a value that cannot be called, and the inherited `valueOf`
      returns the object itself, so the conversion throws a TypeError. An array
      joins its items, skipping `null` and `undefined`, so it throws exactly when
      one of its items does. */
  predicate Stringifiable(v: Value)
  {
    match v
    case Obj(props) => "toString" !in props
    case Arr(items) => forall i | 0 <= i < |items| :: items[i].Null? || items[i].Undefined? || Stringifiable(items[i])
    case _ => true
  }

  /** An own `toString` key breaks the conversion, also inside an array; an
      ordinary object, and the empty items of an array, do not. */
  lemma StringifiableExamples(props: map<string, Value>)
    ensures Stringifiable(Obj(props)) <==> "toString" !in props
    ensures !Stringifiable(Arr([Str("a"), Obj(map["toString" := Num(1.0)])]))
    ensures Stringifiable(Arr([Null, Undefined, Obj(map["valueOf" := Num(1.0)])]))
  {
    var bad := Obj(map["toString" := Num(1.0)]);
    assert !Stringifiable(bad);
    assert [Str("a"), bad][1] == bad;
  }

  /** The index-keyed properties of an array or string, "0" to "n-1". */
  function IndexProps(items: seq<Value>): map<string, Value>
  {
    if |items| == 0 then map[]
    else IndexProps(items[..|items| - 1])[Decimal(|items| - 1) := items[|items| - 1]]
  }

  /** An index map holds exactly the decimal indices, each bound to its item. */
  lemma {:induction false} IndexPropsContents(items: seq<Value>)
    ensures forall i | 0 <= i < |items| :: Decimal(i) in IndexProps(items) && IndexProps(items)[Decimal(i)] == items[i]
    ensures forall k | k in IndexProps(items) :: exists i | 0 <= i < |items| :: k == Decimal(i)
  {
    if |items| > 0 {
      var n := |items| - 1;
      var prefix := items[..n];
      var m := IndexProps(prefix);
      assert IndexProps(items) == m[Decimal(n) := items[n]];
      IndexPropsContents(prefix);
      forall i | 0 <= i < |items|
        ensures Decimal(i) in IndexProps(items) && IndexProps(items)[Decimal(i)] == items[i]
      {
        if i < n {
          assert Numerals.Value(Decimal(i), 10) == i;
          assert Decimal(i) != Decimal(n);
          assert prefix[i] == items[i];
        }
      }
      forall k | k in IndexProps(items)
        ensures exists i | 0 <= i < |items| :: k == Decimal(i)
      {
        if k != Decimal(n) {
          assert k in m;
          var i :| 0 <= i < n && k == Decimal(i);
        }
      }
    }
  }

  /** The own enumerable properties `{ ...v }` copies: an object's own properties,
      the characters of a string and the items of an array by index, and nothing
      for the other values. */
  function OwnProps(v: Value): map<string, Value>
  {
    match v
    case Obj(props) => props
    case Arr(items) => IndexProps(items)
    case Str(s) => IndexProps(seq(|s|, i requires 0 <= i < |s| => Str([s[i]])))
    case _ => map[]
  }

  /** `{ ...base, ...v }`: the properties of `v` are laid over `base`; later keys
      win. */
  function Spread(base: map<string, Value>, v: Value): (r: map<string, Value>)
    ensures r.Keys == base.Keys + OwnProps(v).Keys
    ensures forall k | k in OwnProps(v) :: r[k] == OwnProps(v)[k]
    ensures forall k | k in base && k !in OwnProps(v) :: r[k] == base[k]
  {
    base + OwnProps(v)
  }

  /** Spreading an empty value adds nothing. */
  lemma SpreadOfNothing(base: map<string, Value>, v: Value)
    requires !v.Obj? && !v.Arr? && !v.Str?
    ensures Spread(base, v) == base
  {
  }
}
