/**
 The slice of ECMAScript that `isObjectEmpty2` looks at: values classified by
 `typeof` and `Array.isArray`, and objects described by their own properties
 (key and enumerable attribute) as `Object.keys` reads them.  Property values
 are carried along but never inspected; accessors are never called.
 */
module JsValues {

  datatype Option<+T> = None | Some(value: T)

  /** A property key is a String or a Symbol; a symbol is known by its identity only. */
  datatype PropertyKey = StrKey(name: string) | SymKey(id: nat)

  /** Numbers are a tag only: no floating-point value is modelled. */
  datatype NumberKind = Finite | PositiveInfinity | NegativeInfinity | NaN

  datatype Primitive =
    | StringValue(s: string)
    | NumberValue(kind: NumberKind)
    | BooleanValue(b: bool)
    | SymbolValue(id: nat)
    | BigIntValue(i: int)

  /** What Object.preventExtensions, Object.seal and Object.freeze leave behind. */
  datatype Integrity = Extensible | NonExtensible | Sealed | Frozen

  /** A data property holds a value; an accessor property holds a getter and a setter. */
  datatype Slot =
    | Data(value: JsValue)
    | Accessor(getter: Option<JsObject>, setter: Option<JsObject>)

  datatype Property = Property(key: PropertyKey, slot: Slot, enumerable: bool)

  /**
   An object.  `Ordinary` covers object literals, `Object.create(...)` results and
   instances built by constructors; its own properties are listed in creation
   order and `proto` is its [[Prototype]] (None for `Object.create(null)`).
   `Proxy` is a proxy whose handler defines no trap, so every internal method
   forwards to the target.
   */
  datatype JsObject =
    | Ordinary(own: seq<Property>, proto: Option<JsObject>, integrity: Integrity)
    | ArrayExotic(elements: seq<JsValue>)
    | FunctionObject(own: seq<Property>)
    | Proxy(target: JsObject)

  datatype JsValue = Undefined | Null | Prim(p: Primitive) | Object(obj: JsObject)

  /** The object a chain of trap-less proxies finally forwards to. */
  function Unwrap(o: JsObject): (r: JsObject)
    ensures !r.Proxy?
    ensures !o.Proxy? ==> r == o
  {
    match o
    case Proxy(t) => Unwrap(t)
    case _ => o
  }

  /**
   IsCallable: a function is callable, and a proxy has a [[Call]] method
   exactly when its target has one (ProxyCreate, section 10.5.14 of ECMA-262).
   */
  predicate IsCallable(o: JsObject)
    ensures IsCallable(o) <==> Unwrap(o).FunctionObject?
  {
    match o
    case FunctionObject(_) => true
    case Proxy(t) => IsCallable(t)
    case _ => false
  }

  /** The `typeof` operator (section 13.5.3 of ECMA-262). */
  function TypeOf(v: JsValue): (r: string)
    ensures r == "object" <==> v == Null || (v.Object? && !Unwrap(v.obj).FunctionObject?)
    ensures r == "function" <==> v.Object? && Unwrap(v.obj).FunctionObject?
  {
    match v
    case Undefined => "undefined"
    case Null => "object"
    case Prim(p) =>
      (match p
       case StringValue(_) => "string"
       case NumberValue(_) => "number"
       case BooleanValue(_) => "boolean"
       case SymbolValue(_) => "symbol"
       case BigIntValue(_) => "bigint")
    case Object(o) => if IsCallable(o) then "function" else "object"
  }

  /** The abstract operation IsArray on an object: array exotic, seen through proxies. */
  predicate IsArrayObject(o: JsObject)
    ensures IsArrayObject(o) <==> Unwrap(o).ArrayExotic?
  {
    match o
    case ArrayExotic(_) => true
    case Proxy(t) => IsArrayObject(t)
    case _ => false
  }

  /** `Array.isArray` (section 23.1.2.2 of ECMA-262): false for every non-object. */
  predicate IsArray(v: JsValue)
    ensures IsArray(v) <==> v.Object? && Unwrap(v.obj).ArrayExotic?
  {
    v.Object? && IsArrayObject(v.obj)
  }

  function DigitChar(d: nat): char
    requires d < 10
  {
    "0123456789"[d]
  }

  /** The canonical decimal string of an array index. */
  function DecimalString(n: nat): string
    decreases n
  {
    if n < 10 then [DigitChar(n)] else DecimalString(n / 10) + [DigitChar(n % 10)]
  }

  /** The own properties of an array: one enumerable index per element, then the non-enumerable "length". */
  function ArrayOwnProperties(elements: seq<JsValue>): (r: seq<Property>)
    ensures |r| == |elements| + 1
    ensures forall i :: 0 <= i < |elements| ==> r[i].key.StrKey? && r[i].enumerable && r[i].slot == Data(elements[i])
    ensures r[|elements|].key == StrKey("length") && !r[|elements|].enumerable
  {
    seq(|elements|, i requires 0 <= i < |elements| => Property(StrKey(DecimalString(i)), Data(elements[i]), true))
      + [Property(StrKey("length"), Data(Prim(NumberValue(Finite))), false)]
  }

  /**
   The own properties of an object, as [[OwnPropertyKeys]] and
   [[GetOwnProperty]] report them; a trap-less proxy reports its target's.
   */
  function OwnProperties(o: JsObject): (r: seq<Property>)
    ensures Unwrap(o).Ordinary? ==> r == Unwrap(o).own
    ensures Unwrap(o).FunctionObject? ==> r == Unwrap(o).own
    ensures Unwrap(o).ArrayExotic? ==> r == ArrayOwnProperties(Unwrap(o).elements)
  {
    match o
    case Ordinary(own, _, _) => own
    case FunctionObject(own) => own
    case ArrayExotic(elements) => ArrayOwnProperties(elements)
    case Proxy(t) => OwnProperties(t)
  }

  /** Some property in `props` is string-keyed and enumerable. */
  predicate HasEnumerableStringKey(props: seq<Property>)
  {
    exists p :: p in props && p.key.StrKey? && p.enumerable
  }

  /**
   EnumerableOwnProperties(O, key) (section 7.3.23 of ECMA-262): the names of the
   string-keyed properties whose enumerable attribute is set, in list order.
   Symbol keys are skipped whatever their attribute.
   */
  function EnumerableOwnStringKeys(props: seq<Property>): (r: seq<string>)
    ensures |r| <= |props|
    ensures forall k :: k in r <==> exists p :: p in props && p.key == StrKey(k) && p.enumerable
    ensures r == [] <==> !HasEnumerableStringKey(props)
  {
    if props == [] then []
    else
      var rest := EnumerableOwnStringKeys(props[1..]);
      var p := props[0];
      if p.key.StrKey? && p.enumerable then [p.key.name] + rest else rest
  }

  /** `Object.keys` (section 20.1.2.18 of ECMA-262) applied to an object. */
  function ObjectKeys(o: JsObject): (r: seq<string>)
    ensures |r| <= |OwnProperties(o)|
    ensures r == [] <==> !HasEnumerableStringKey(OwnProperties(o))
  {
    EnumerableOwnStringKeys(OwnProperties(o))
  }

  /** The symbol-keyed properties whose enumerable attribute is set, by symbol identity, in list order. */
  function EnumerableOwnSymbols(props: seq<Property>): (r: seq<nat>)
    ensures |r| <= |props|
    ensures forall id :: id in r <==> exists p :: p in props && p.key == SymKey(id) && p.enumerable
    ensures r == [] <==> forall p :: p in props ==> !(p.key.SymKey? && p.enumerable)
  {
    if props == [] then []
    else
      var rest := EnumerableOwnSymbols(props[1..]);
      var p := props[0];
      if p.key.SymKey? && p.enumerable then [p.key.id] + rest else rest
  }

  /** Listing the names of a concatenation lists each part's names in turn. */
  lemma {:induction false} EnumerableOwnStringKeysConcat(a: seq<Property>, b: seq<Property>)
    ensures EnumerableOwnStringKeys(a + b) == EnumerableOwnStringKeys(a) + EnumerableOwnStringKeys(b)
  {
    if a == [] {
      assert a + b == b;
    } else {
      assert (a + b)[1..] == a[1..] + b;
      EnumerableOwnStringKeysConcat(a[1..], b);
    }
  }

  /** When every property is string-keyed and enumerable, every one of them is listed. */
  lemma {:induction false} AllEnumerableStringKeysListed(props: seq<Property>)
    requires forall p :: p in props ==> p.key.StrKey? && p.enumerable
    ensures |EnumerableOwnStringKeys(props)| == |props|
  {
    if props != [] {
      assert forall p :: p in props[1..] ==> p in props;
      AllEnumerableStringKeysListed(props[1..]);
    }
  }

  /** The names listed depend on the keys and enumerable attributes only, never on the slots. */
  lemma {:induction false} EnumerableOwnStringKeysIgnoreSlots(a: seq<Property>, b: seq<Property>)
    requires |a| == |b|
    requires forall i :: 0 <= i < |a| ==> a[i].key == b[i].key && a[i].enumerable == b[i].enumerable
    ensures EnumerableOwnStringKeys(a) == EnumerableOwnStringKeys(b)
  {
    if a != [] {
      EnumerableOwnStringKeysIgnoreSlots(a[1..], b[1..]);
    }
  }

  /** `Object.keys` of an array lists one index per element; "length" is not enumerable. */
  lemma ArrayKeysCount(elements: seq<JsValue>)
    ensures |ObjectKeys(ArrayExotic(elements))| == |elements|
  {
    var indices := seq(|elements|, i requires 0 <= i < |elements| => Property(StrKey(DecimalString(i)), Data(elements[i]), true));
    var length := Property(StrKey("length"), Data(Prim(NumberValue(Finite))), false);
    assert ArrayOwnProperties(elements) == indices + [length];
    EnumerableOwnStringKeysConcat(indices, [length]);
    AllEnumerableStringKeysListed(indices);
  }
}
