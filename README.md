# is-object-empty2 in Dafny

`isObjectEmpty2(obj)` decides whether a JavaScript value is an empty plain
object. It is one expression. It gives `false` unless the value is not `null`,
its `typeof` is `"object"` and `Array.isArray` rejects it. For a value that
passes those three tests it gives whether `Object.keys(obj)` is empty.

This project models that expression. It also models the three built-ins the
expression calls, after ECMA-262 (ECMAScript 2023):

- `typeof` (section 13.5.3);
- `Array.isArray` (section 23.1.2.2);
- `Object.keys` (section 20.1.2.18), which lists the names from
  EnumerableOwnProperties (section 7.3.23).

Files:

- `js_values.dfy`, module `JsValues`: the values. A value is `undefined`,
  `null`, a primitive (string, number, boolean, symbol, bigint) or an object.
  An object is one of four kinds:
  - an ordinary object, with its own properties in creation order, its
    prototype (absent for `Object.create(null)`) and its integrity level
    (extensible, non-extensible, sealed, frozen);
  - an array;
  - a function;
  - a proxy with an empty handler.

  A property is a key (string or symbol), a slot (a data value or a
  getter/setter pair) and an enumerable flag. The module also holds the
  built-ins and lemmas about the key listing.
- `is_object_empty2.dfy`, module `ObjectEmptiness`: the predicate as written,
  the properties it has, and the corrected predicate from the finding below.
- `expected_cases.dfy`, module `ExpectedCases`: the values from the
  repository's test file, built in the model, with the result the code gives
  for each.

## Model

| member | source | states |
|---|---|---|
| `ObjectEmptiness.IsObjectEmpty2` | index.js:23 | A true result means the value is an object that is an ordinary object, possibly behind proxies, with no own enumerable string-keyed property |
| `ObjectEmptiness.Characterization` | index.js:23 | Soundness and completeness: true exactly for a non-callable, non-array object with no own enumerable string-keyed property |
| `ObjectEmptiness.NonObjectsAreNotEmpty` | index.js:23 | `null`, `undefined` and every primitive give false |
| `ObjectEmptiness.CallablesAreNotEmpty` | index.js:23 | A function, or a proxy over one, has `typeof` "function" and gives false |
| `ObjectEmptiness.ArraysAreNotEmpty` | index.js:23 | Every array gives false, whatever its length or elements |
| `ObjectEmptiness.ArrayGuardIsNeeded` | index.js:23 | An array's `typeof` is "object", and its key list is empty exactly when it has no elements, so without the `Array.isArray` test `[]` would give true |
| `ObjectEmptiness.NonEnumerablePropertyIgnored` | index.js:23 | Adding a non-enumerable own property, string- or symbol-keyed, anywhere in the list never changes the result |
| `ObjectEmptiness.SymbolPropertyIgnored` | index.js:23 | As written, adding a symbol-keyed own property, even an enumerable one, never changes the result |
| `ObjectEmptiness.EnumerableStringPropertyCounts` | index.js:23 | Adding an own enumerable string-keyed property always gives false, whatever its value or accessor |
| `ObjectEmptiness.PrototypeAndIntegrityIgnored` | index.js:23 | The prototype (null, empty or carrying enumerable properties) and the frozen/sealed status never change the result |
| `ObjectEmptiness.ValuesNeverInspected` | index.js:23 | Two objects whose own properties agree on keys and enumerable flags give the same result, whatever the values |
| `ObjectEmptiness.UnwrapWrapInProxies` | index.js:23 | Unwrapping any stack of proxies with empty handlers reaches the object the stack was built around |
| `ObjectEmptiness.ProxiesAreTransparent` | index.js:23 | Any stack of proxies with empty handlers gives the same result as its target |
| `ObjectEmptiness.IsObjectEmptyCountingSymbols` | index.d.ts:5 | Corrected predicate: a true result means a non-callable, non-array object with no own enumerable property of either key kind, and the as-written predicate also gives true |
| `ObjectEmptiness.CountingSymbolsCharacterization` | index.d.ts:5 | The corrected predicate is true exactly for a non-callable, non-array object with no own enumerable property at all |
| `ObjectEmptiness.DiscrepancyIsSymbolKeys` | index.js:23 | The as-written and corrected predicates differ exactly on such objects that have an enumerable symbol-keyed property and no enumerable string-keyed one |
| `JsValues.IsCallable` | index.js:23 | A value is callable exactly when it is a function after the proxies around it are unwrapped |
| `JsValues.TypeOf` | index.js:23 | `typeof` is "object" exactly for `null` and non-callable objects, and "function" exactly for callable ones |
| `JsValues.IsArrayObject` | index.js:23 | `Array.isArray` accepts an object exactly when it is an array after unwrapping proxies |
| `JsValues.IsArray` | index.js:23 | `Array.isArray` accepts a value exactly when it is an object that is an array after unwrapping proxies; every non-object is rejected |
| `JsValues.ArrayOwnProperties` | index.js:23 | An array has one enumerable string-keyed property per element, holding that element, followed by a non-enumerable "length" |
| `JsValues.OwnProperties` | index.js:23 | A proxy reports its target's own properties. An array reports one enumerable index per element plus a non-enumerable "length" |
| `JsValues.EnumerableOwnStringKeys` | index.js:23 | A name is listed exactly when some own property with that string key is enumerable. The list is empty exactly when there is no such property |
| `JsValues.ObjectKeys` | index.js:23 | `Object.keys` is empty exactly when the object has no own enumerable string-keyed property, and it is never longer than the property list |
| `JsValues.EnumerableOwnSymbols` | index.d.ts:5 | A symbol is listed exactly when some own property with that symbol key is enumerable |
| `JsValues.EnumerableOwnStringKeysConcat` | index.js:23 | Listing the names of a concatenation lists each part's names in turn |
| `JsValues.AllEnumerableStringKeysListed` | index.js:23 | When every property is string-keyed and enumerable, every one is listed |
| `JsValues.EnumerableOwnStringKeysIgnoreSlots` | index.js:23 | The listed names depend only on keys and enumerable flags, never on values or accessors |
| `JsValues.ArrayKeysCount` | index.js:23 | `Object.keys` of an array has exactly one entry per element |
| `ExpectedCases.LiteralExpectations` | test/index.test.js:4-9 | `{}` gives true; `{ a: 1 }` and `{ key: 'value' }` give false |
| `ExpectedCases.NonObjectExpectations` | test/index.test.js:11-30 | Arrays, `null`, `undefined`, a string, numbers including ±Infinity, a boolean, an arrow function, a symbol and a bigint give false |
| `ExpectedCases.NullPrototypeAndNestingExpectations` | test/index.test.js:32-46 | `Object.create(null)` gives true, then false after `obj.a = 1`. Objects holding nested empty objects give false |
| `ExpectedCases.IntegrityAndProxyExpectations` | test/index.test.js:57-79 | Frozen and sealed `{}` give true. A proxy with an empty handler gives its target's result |
| `ExpectedCases.EnumerabilityExpectations` | test/index.test.js:81-146 | Only non-enumerable properties give true. A non-enumerable symbol next to `a: 1` gives false, and so does an enumerable accessor |
| `ExpectedCases.ConstructedInstanceExpectations` | test/index.test.js:48-55 | `new Parent()` whose constructor assigns `this.a = 1` gives false. An instance with an own `inherited` property gives false, and an enumerable property on its prototype alone (test/index.test.js:125-134) would not make it non-empty |
| `ExpectedCases.SymbolTestsDisagreeWithCode` | test/index.test.js:88-106 | As written, objects whose only properties are enumerable symbols give true, where the tests expect false. The corrected predicate gives false |

## Left out

- Proxy traps: a proxy is modelled only with an empty handler, as a forwarder to its target. The `ownKeys` and `getOwnPropertyDescriptor` traps are host behaviour.
- Revoked proxies are not modelled. `Array.isArray` and `Object.keys` throw on them, so the predicate would throw rather than return.
- Getters and setters are never called. An accessor is carried only as a key and an enumerable flag, which is all `Object.keys` reads.
- Key order: the model keeps creation order and does not sort integer-like keys first. Only the length of the `Object.keys` list is used.
- Numbers are a tag (finite, ±Infinity, NaN), with no floating-point values.
- Arrays are modelled by their elements only. Holes and extra named properties on arrays are not modelled, because arrays are rejected before their keys are read.
- Exotic objects such as `String` wrappers, typed arrays and `arguments` are not modelled. Their own keys are never needed beyond what an ordinary object with the same property list gives.
- Idempotence and the absence of side effects are not stated as lemmas. Every member is a mathematical function of its argument, so they hold by construction.
- The module export (index.js:25) and the type declaration index.d.ts hold no logic. The declaration's comment is used only as the intended behaviour in the finding.
- The tests at test/index.test.js:88-106 and the comment at index.d.ts:5 say enumerable symbol-keyed properties make an object non-empty. The code does not: it calls only `Object.keys`. The model follows the code, and the gap is recorded as the finding below.
- Distinct keys: an object's property list is not required to hold each key once, so objects JavaScript cannot build (two entries for `"a"`) can be represented. The lemmas that add a property hold for such lists too; they do not model redefining an existing key, which replaces its entry instead of adding one.

## Findings

| source | as written | input that shows it | evidently intended | confidence | as-written member | corrected member |
|---|---|---|---|---|---|---|
| index.js:23 | Emptiness is decided by `Object.keys(obj).length === 0`, which never lists symbol-keyed properties | `const o = {}; o[Symbol('test')] = 123;` gives `true` | `false`, as test/index.test.js:88-106 expect and index.d.ts:5 describes ("handles edge cases like objects with enumerable symbols") | high, not executed | `ExpectedCases.SymbolTestsDisagreeWithCode` (with `ObjectEmptiness.SymbolPropertyIgnored`) | `ObjectEmptiness.IsObjectEmptyCountingSymbols` (with `ObjectEmptiness.CountingSymbolsCharacterization`) |

`IsObjectEmpty2` stays the model of index.js:23 as written. The corrected
predicate also checks the enumerable own symbols, as
`Object.getOwnPropertySymbols` filtered by enumerability would.
`ObjectEmptiness.DiscrepancyIsSymbolKeys` proves the two predicates differ
exactly on objects whose only enumerable own keys are symbols.
