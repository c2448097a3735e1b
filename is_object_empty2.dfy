/**
 `isObjectEmpty2(obj)`: true only for a value that is not null, whose `typeof`
 is "object" and that is not an array, and then exactly when `Object.keys`
 finds no own enumerable string-keyed property.
 */
module ObjectEmptiness {
  import opened JsValues

  /**
   The predicate as index.js writes it: the `&&` chain guards the ternary, and
   only the length of the `Object.keys` list is compared with zero.  A true
   result means a (possibly proxied) ordinary object without any own
   enumerable string-keyed property.
   */
  function IsObjectEmpty2(v: JsValue): (r: bool)
    ensures r ==> v.Object? && Unwrap(v.obj).Ordinary?
    ensures r ==> !HasEnumerableStringKey(Unwrap(v.obj).own)
  {
    if v != Null && TypeOf(v) == "object" && !IsArray(v) then |ObjectKeys(v.obj)| == 0 else false
  }

  /** A keyed object: an object that is neither callable nor an array, seen through proxies. */
  predicate IsKeyedObject(v: JsValue)
  {
    v.Object? && Unwrap(v.obj).Ordinary?
  }

  /** Sound and complete: true exactly for a keyed object with no own enumerable string-keyed property. */
  lemma Characterization(v: JsValue)
    ensures IsObjectEmpty2(v) <==> IsKeyedObject(v) && !HasEnumerableStringKey(Unwrap(v.obj).own)
  {
  }

  /** null, undefined and every primitive give false. */
  lemma NonObjectsAreNotEmpty(v: JsValue)
    requires !v.Object?
    ensures !IsObjectEmpty2(v)
  {
  }

  /** A function, or a proxy over one, gives false: its `typeof` is "function". */
  lemma CallablesAreNotEmpty(o: JsObject)
    requires IsCallable(o)
    ensures TypeOf(Object(o)) == "function"
    ensures !IsObjectEmpty2(Object(o))
  {
  }

  /** Every array gives false, whatever its length or elements. */
  lemma ArraysAreNotEmpty(v: JsValue)
    requires IsArray(v)
    ensures !IsObjectEmpty2(v)
  {
  }

  /**
   The `Array.isArray` guard is needed: an array is an object for `typeof`, and
   `Object.keys([])` is empty, so without the guard `[]` would give true.
   */
  lemma ArrayGuardIsNeeded(elements: seq<JsValue>)
    ensures TypeOf(Object(ArrayExotic(elements))) == "object"
    ensures ObjectKeys(ArrayExotic(elements)) == [] <==> elements == []
  {
  }

  /** Adding a non-enumerable own property, string- or symbol-keyed, never changes the result. */
  lemma NonEnumerablePropertyIgnored(own: seq<Property>, proto: Option<JsObject>, integrity: Integrity, i: nat, p: Property)
    requires i <= |own|
    requires !p.enumerable
    ensures IsObjectEmpty2(Object(Ordinary(own[..i] + [p] + own[i..], proto, integrity)))
         == IsObjectEmpty2(Object(Ordinary(own, proto, integrity)))
  {
  }

  /**
   As written, adding a symbol-keyed own property, enumerable or not, never
   changes the result: `Object.keys` does not list symbols.
   */
  lemma SymbolPropertyIgnored(own: seq<Property>, proto: Option<JsObject>, integrity: Integrity, i: nat, p: Property)
    requires i <= |own|
    requires p.key.SymKey?
    ensures IsObjectEmpty2(Object(Ordinary(own[..i] + [p] + own[i..], proto, integrity)))
         == IsObjectEmpty2(Object(Ordinary(own, proto, integrity)))
  {
  }

  /**
   An own enumerable string-keyed property makes any object non-empty, whatever
   it holds: a nested empty object, any other value, or an accessor.
   */
  lemma EnumerableStringPropertyCounts(own: seq<Property>, proto: Option<JsObject>, integrity: Integrity, i: nat, p: Property)
    requires i <= |own|
    requires p.key.StrKey? && p.enumerable
    ensures !IsObjectEmpty2(Object(Ordinary(own[..i] + [p] + own[i..], proto, integrity)))
  {
  }

  /**
   Only own properties count: the prototype (null or not, with or without
   enumerable properties of its own) and the frozen/sealed/non-extensible
   status never change the result.
   */
  lemma PrototypeAndIntegrityIgnored(own: seq<Property>, proto1: Option<JsObject>, proto2: Option<JsObject>,
                                     integrity1: Integrity, integrity2: Integrity)
    ensures IsObjectEmpty2(Object(Ordinary(own, proto1, integrity1)))
         == IsObjectEmpty2(Object(Ordinary(own, proto2, integrity2)))
  {
  }

  /**
   Property values are never inspected: two objects whose own properties agree
   on keys and enumerable attributes, in the same order, give the same result.
   */
  lemma ValuesNeverInspected(own1: seq<Property>, own2: seq<Property>, proto: Option<JsObject>, integrity: Integrity)
    requires |own1| == |own2|
    requires forall i :: 0 <= i < |own1| ==> own1[i].key == own2[i].key && own1[i].enumerable == own2[i].enumerable
    ensures IsObjectEmpty2(Object(Ordinary(own1, proto, integrity)))
         == IsObjectEmpty2(Object(Ordinary(own2, proto, integrity)))
  {
  }

  /** `n` trap-less proxies stacked around `o`. */
  function WrapInProxies(o: JsObject, n: nat): JsObject
  {
    if n == 0 then o else Proxy(WrapInProxies(o, n - 1))
  }

  /** Unwrapping a stack of proxies reaches the object the stack was built around. */
  lemma {:induction false} UnwrapWrapInProxies(o: JsObject, n: nat)
    ensures Unwrap(WrapInProxies(o, n)) == Unwrap(o)
  {
    if n > 0 {
      UnwrapWrapInProxies(o, n - 1);
    }
  }

  /** A trap-less proxy, however deeply nested, gives the same result as its target. */
  lemma ProxiesAreTransparent(o: JsObject, n: nat)
    ensures IsObjectEmpty2(Object(WrapInProxies(o, n))) == IsObjectEmpty2(Object(o))
  {
  }

  /**
   The evidently intended predicate, which the type declaration's comment and
   the symbol tests describe: enumerable symbol-keyed own properties count too.
   */
  function IsObjectEmptyCountingSymbols(v: JsValue): (r: bool)
    ensures r ==> IsKeyedObject(v)
    ensures r ==> IsObjectEmpty2(v)
    ensures r ==> forall p :: p in OwnProperties(v.obj) ==> !p.enumerable
  {
    if v != Null && TypeOf(v) == "object" && !IsArray(v) then
      |ObjectKeys(v.obj)| == 0 && |EnumerableOwnSymbols(OwnProperties(v.obj))| == 0
    else
      false
  }

  /**
   The corrected predicate is true exactly for a keyed object without any own
   enumerable property, and adding an enumerable symbol-keyed property makes it false.
   */
  lemma CountingSymbolsCharacterization(v: JsValue)
    ensures IsObjectEmptyCountingSymbols(v)
        <==> IsKeyedObject(v) && forall p :: p in Unwrap(v.obj).own ==> !p.enumerable
  {
  }

  /**
   The as-written predicate and the corrected one differ exactly on keyed
   objects whose only own enumerable properties are symbol-keyed.
   */
  lemma DiscrepancyIsSymbolKeys(v: JsValue)
    ensures IsObjectEmpty2(v) && !IsObjectEmptyCountingSymbols(v)
        <==> IsKeyedObject(v)
             && !HasEnumerableStringKey(Unwrap(v.obj).own)
             && exists p :: p in Unwrap(v.obj).own && p.key.SymKey? && p.enumerable
  {
    Characterization(v);
    CountingSymbolsCharacterization(v);
  }
}
