/**
 The concrete values of the repository's test file, built in the model, and
 what `isObjectEmpty2` gives for each.
 */
module ExpectedCases {
  import opened JsValues
  import opened ObjectEmptiness

  /** A function object as created by `function () {}` or `() => {}`: "length" and "name" are not enumerable. */
  const EmptyFunction: JsObject :=
    FunctionObject([Property(StrKey("length"), Data(Prim(NumberValue(Finite))), false),
                    Property(StrKey("name"), Data(Prim(StringValue(""))), false)])

  /** Object.prototype, reduced to two of its methods; none of them is enumerable. */
  const ObjectPrototype: JsObject :=
    Ordinary([Property(StrKey("toString"), Data(Object(EmptyFunction)), false),
              Property(StrKey("hasOwnProperty"), Data(Object(EmptyFunction)), false)],
             None, Extensible)

  /** An assignment `obj.k = v` (or a literal entry `k: v`) creates an enumerable data property. */
  function Assigned(key: PropertyKey, value: JsValue): Property
  {
    Property(key, Data(value), true)
  }

  /** `Object.defineProperty(obj, k, { value: v })`: the enumerable attribute defaults to false. */
  function Hidden(key: PropertyKey, value: JsValue): Property
  {
    Property(key, Data(value), false)
  }

  /** An object literal with the given own properties. */
  function Literal(own: seq<Property>): JsValue
  {
    Object(Ordinary(own, Some(ObjectPrototype), Extensible))
  }

  const One: JsValue := Prim(NumberValue(Finite))

  /** `{}` is empty; `{ a: 1 }` and `{ key: 'value' }` are not. */
  lemma LiteralExpectations()
    ensures IsObjectEmpty2(Literal([]))
    ensures !IsObjectEmpty2(Literal([Assigned(StrKey("a"), One)]))
    ensures !IsObjectEmpty2(Literal([Assigned(StrKey("key"), Prim(StringValue("value")))]))
  {
  }

  /** Arrays, null, undefined and the other non-objects all give false. */
  lemma NonObjectExpectations()
    ensures !IsObjectEmpty2(Object(ArrayExotic([])))
    ensures !IsObjectEmpty2(Object(ArrayExotic([One, One, One])))
    ensures !IsObjectEmpty2(Null) && !IsObjectEmpty2(Undefined)
    ensures !IsObjectEmpty2(Prim(StringValue("string")))
    ensures !IsObjectEmpty2(Prim(NumberValue(Finite)))
    ensures !IsObjectEmpty2(Prim(BooleanValue(true)))
    ensures !IsObjectEmpty2(Prim(NumberValue(PositiveInfinity)))
    ensures !IsObjectEmpty2(Prim(NumberValue(NegativeInfinity)))
    ensures !IsObjectEmpty2(Object(EmptyFunction))
    ensures !IsObjectEmpty2(Prim(SymbolValue(0)))
    ensures !IsObjectEmpty2(Prim(BigIntValue(123)))
  {
  }

  /** `Object.create(null)` before and after `obj.a = 1`; nested empty objects still count as values. */
  lemma NullPrototypeAndNestingExpectations()
    ensures IsObjectEmpty2(Object(Ordinary([], None, Extensible)))
    ensures !IsObjectEmpty2(Object(Ordinary([Assigned(StrKey("a"), One)], None, Extensible)))
    ensures !IsObjectEmpty2(Literal([Assigned(StrKey("nested"), Literal([]))]))
    ensures !IsObjectEmpty2(Literal([Assigned(StrKey("a"), Literal([Assigned(StrKey("b"),
                              Literal([Assigned(StrKey("c"), Literal([]))]))]))]))
  {
  }

  /** Frozen and sealed `{}`, and proxies with an empty handler. */
  lemma IntegrityAndProxyExpectations()
    ensures IsObjectEmpty2(Object(Ordinary([], Some(ObjectPrototype), Frozen)))
    ensures IsObjectEmpty2(Object(Ordinary([], Some(ObjectPrototype), Sealed)))
    ensures IsObjectEmpty2(Object(Proxy(Ordinary([], Some(ObjectPrototype), Extensible))))
    ensures !IsObjectEmpty2(Object(Proxy(Ordinary([Assigned(StrKey("a"), One)], Some(ObjectPrototype), Extensible))))
  {
  }

  /** Non-enumerable properties alone, or next to an enumerable one; an enumerable accessor. */
  lemma EnumerabilityExpectations()
    ensures IsObjectEmpty2(Literal([Hidden(StrKey("hidden"), One)]))
    ensures !IsObjectEmpty2(Literal([Assigned(StrKey("a"), One), Hidden(SymKey(0), One)]))
    ensures IsObjectEmpty2(Literal([Hidden(StrKey("prop1"), One), Hidden(StrKey("prop2"), One)]))
    ensures !IsObjectEmpty2(Literal([Property(StrKey("computed"),
                                              Accessor(Some(EmptyFunction), Some(EmptyFunction)), true)]))
  {
  }

  /**
   `new Parent()`: first with a constructor that assigns `this.a = 1`; then with one
   that assigns `this.inherited` while the prototype holds an enumerable `inheritedProp`.
   */
  lemma ConstructedInstanceExpectations()
    ensures
      var parentPrototype := Ordinary([Hidden(StrKey("constructor"), Object(EmptyFunction))],
                                      Some(ObjectPrototype), Extensible);
      !IsObjectEmpty2(Object(Ordinary([Assigned(StrKey("a"), One)], Some(parentPrototype), Extensible)))
    ensures
      var parentPrototype := Ordinary([Assigned(StrKey("inheritedProp"), Prim(StringValue("prototype-value")))],
                                      Some(ObjectPrototype), Extensible);
      && !IsObjectEmpty2(Object(Ordinary([Assigned(StrKey("inherited"), Prim(StringValue("value")))],
                                         Some(parentPrototype), Extensible)))
      && IsObjectEmpty2(Object(Ordinary([], Some(parentPrototype), Extensible)))
  {
  }

  /**
   The two symbol tests expect false; as written the predicate gives true for
   both objects, while the corrected predicate gives false.
   */
  lemma SymbolTestsDisagreeWithCode()
    ensures IsObjectEmpty2(Literal([Assigned(SymKey(1), One)]))
    ensures IsObjectEmpty2(Literal([Assigned(SymKey(1), One), Assigned(SymKey(2), One)]))
    ensures !IsObjectEmptyCountingSymbols(Literal([Assigned(SymKey(1), One)]))
    ensures !IsObjectEmptyCountingSymbols(Literal([Assigned(SymKey(1), One), Assigned(SymKey(2), One)]))
  {
  }
}
